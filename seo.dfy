/** Document-head metadata of `src/lib/seo.ts`: the caller's partial data laid
    over the site defaults, the `||` fallback chains that pick each tag's value,
    and `updateSEO`, which sets the title and find-or-creates fourteen tags in a
    fixed order. */
module Seo {
  import opened Wrappers
  import opened Head

  /** `SEOData`, every field optional as in `Partial<SEOData>`; an absent key is
      `None`. */
  datatype SeoData = SeoData(
    title: Option<string>, description: Option<string>, canonical: Option<string>,
    ogTitle: Option<string>, ogDescription: Option<string>, ogImage: Option<string>,
    ogUrl: Option<string>, twitterTitle: Option<string>, twitterDescription: Option<string>,
    twitterImage: Option<string>, keywords: Option<string>, noindex: Option<bool>)

  /** The string fields of `SEOData`. */
  datatype Field = Title | Description | Canonical | OgTitle | OgDescription | OgImage | OgUrl
                 | TwitterTitle | TwitterDescription | TwitterImage | Keywords

  function Get(d: SeoData, f: Field): Option<string> {
    match f
    case Title => d.title
    case Description => d.description
    case Canonical => d.canonical
    case OgTitle => d.ogTitle
    case OgDescription => d.ogDescription
    case OgImage => d.ogImage
    case OgUrl => d.ogUrl
    case TwitterTitle => d.twitterTitle
    case TwitterDescription => d.twitterDescription
    case TwitterImage => d.twitterImage
    case Keywords => d.keywords
  }

  /** `{}`: no field given. */
  function NoData(): SeoData {
    SeoData(None, None, None, None, None, None, None, None, None, None, None, None)
  }

  const DefaultDescription: string := "Semtex Technologies helps teams launch clean, powerful LMS platforms in days. Based in Johannesburg, South Africa with global quality standards."
  const DefaultCanonical: string := "https://semtex.co.za"
  const DefaultOgImage: string := "/og-default.jpg"
  const DefaultKeywords: string := "LMS, learning management system, e-learning, education technology, South Africa, Johannesburg, course management, online learning"

  /** `DEFAULT_SEO`. */
  function DefaultSeo(): SeoData {
    SeoData(Some("Semtex Technologies - Modern Learning Management Systems"),
      Some(DefaultDescription),
      Some(DefaultCanonical),
      Some("Semtex Technologies"),
      Some("Modern learning management systems built in Johannesburg"),
      Some(DefaultOgImage),
      Some("https://semtex.co.za"),
      Some("Semtex Technologies"),
      Some("Modern learning management systems built in Johannesburg"),
      Some(DefaultOgImage),
      Some(DefaultKeywords),
      None)
  }

  /** The defaults give every string field and leave `noindex` unset; the
      Twitter card repeats the Open Graph title, description and image, and the
      card URL is the canonical URL. */
  lemma DefaultSeoComplete()
    ensures forall f :: Get(DefaultSeo(), f).Some?
    ensures DefaultSeo().noindex.None?
    ensures DefaultSeo().twitterTitle == DefaultSeo().ogTitle
    ensures DefaultSeo().twitterDescription == DefaultSeo().ogDescription
    ensures DefaultSeo().twitterImage == DefaultSeo().ogImage
    ensures DefaultSeo().ogUrl == DefaultSeo().canonical
  {
  }

  function Pick<T>(base: Option<T>, over: Option<T>): Option<T> {
    if over.Some? then over else base
  }

  /** `{ ...base, ...over }`: each field of `over` that is given replaces the
      same field of `base`. */
  function Merge(base: SeoData, over: SeoData): (r: SeoData)
    ensures forall f :: Get(over, f).Some? ==> Get(r, f) == Get(over, f)
    ensures forall f :: Get(over, f).None? ==> Get(r, f) == Get(base, f)
    ensures r.noindex == if over.noindex.Some? then over.noindex else base.noindex
  {
    SeoData(Pick(base.title, over.title), Pick(base.description, over.description),
      Pick(base.canonical, over.canonical), Pick(base.ogTitle, over.ogTitle),
      Pick(base.ogDescription, over.ogDescription), Pick(base.ogImage, over.ogImage),
      Pick(base.ogUrl, over.ogUrl), Pick(base.twitterTitle, over.twitterTitle),
      Pick(base.twitterDescription, over.twitterDescription),
      Pick(base.twitterImage, over.twitterImage), Pick(base.keywords, over.keywords),
      Pick(base.noindex, over.noindex))
  }

  /** Two records agree on every field. */
  lemma SameFields(a: SeoData, b: SeoData)
    requires forall f :: Get(a, f) == Get(b, f)
    requires a.noindex == b.noindex
    ensures a == b
  {
    assert Get(a, Title) == Get(b, Title) && Get(a, Description) == Get(b, Description);
    assert Get(a, Canonical) == Get(b, Canonical) && Get(a, OgTitle) == Get(b, OgTitle);
    assert Get(a, OgDescription) == Get(b, OgDescription) && Get(a, OgImage) == Get(b, OgImage);
    assert Get(a, OgUrl) == Get(b, OgUrl) && Get(a, TwitterTitle) == Get(b, TwitterTitle);
    assert Get(a, TwitterDescription) == Get(b, TwitterDescription);
    assert Get(a, TwitterImage) == Get(b, TwitterImage) && Get(a, Keywords) == Get(b, Keywords);
  }

  /** Laying nothing over the defaults gives the defaults; laying the same data
      over twice is laying it once; and successive overlays combine. */
  lemma MergeLaws(base: SeoData, p: SeoData, q: SeoData)
    ensures Merge(base, NoData()) == base
    ensures Merge(Merge(base, p), p) == Merge(base, p)
    ensures Merge(Merge(base, p), q) == Merge(base, Merge(p, q))
  {
    SameFields(Merge(base, NoData()), base);
    SameFields(Merge(Merge(base, p), p), Merge(base, p));
    SameFields(Merge(Merge(base, p), q), Merge(base, Merge(p, q)));
  }

  /** `data`: the defaults overlaid by the caller's fields; title and
      description are always present. */
  function Resolve(p: SeoData): (r: SeoData)
    ensures r == Merge(DefaultSeo(), p)
    ensures r.title.Some? && r.description.Some?
  {
    Merge(DefaultSeo(), p)
  }

  /** `a || b` for an optional string: `a` when present and non-empty, else `b`. */
  function Or(a: Option<string>, b: string): (r: string)
    ensures a.Some? && a.value != "" ==> r == a.value
    ensures a.None? || a.value == "" ==> r == b
  {
    if a.Some? && a.value != "" then a.value else b
  }

  /** The robots directive. */
  function Robots(noindex: Option<bool>): (r: string)
    ensures r == "noindex, nofollow" <==> noindex == Some(true)
    ensures r == "index, follow" <==> noindex != Some(true)
  {
    if noindex == Some(true) then "noindex, nofollow" else "index, follow"
  }

  /** The fourteen tags `updateSEO` writes, in call order. */
  function TagKeys(): (r: seq<Key>)
    ensures |r| == 14
  {
    [ MetaName("description"), MetaName("keywords"), LinkRel("canonical"),
      MetaProperty("og:title"), MetaProperty("og:description"), MetaProperty("og:image"),
      MetaProperty("og:url"), MetaProperty("og:type"), MetaProperty("og:site_name"),
      MetaName("twitter:card"), MetaName("twitter:title"), MetaName("twitter:description"),
      MetaName("twitter:image"), MetaName("robots") ]
  }

  /** The fourteen find-or-create updates `updateSEO` performs on the
      overlaid `data`, in call order. */
  function TagUpdates(data: SeoData): (r: seq<Update>)
    requires data.title.Some? && data.description.Some?
    ensures |r| == 14
  {
    var title := data.title.value;
    var description := data.description.value;
    [ Update(MetaName("description"), description),
      Update(MetaName("keywords"), Or(data.keywords, DefaultKeywords)),
      Update(LinkRel("canonical"), Or(data.canonical, DefaultCanonical)),
      Update(MetaProperty("og:title"), Or(data.ogTitle, title)),
      Update(MetaProperty("og:description"), Or(data.ogDescription, description)),
      Update(MetaProperty("og:image"), Or(data.ogImage, DefaultOgImage)),
      Update(MetaProperty("og:url"), Or(data.ogUrl, Or(data.canonical, DefaultCanonical))),
      Update(MetaProperty("og:type"), "website"),
      Update(MetaProperty("og:site_name"), "Semtex Technologies"),
      Update(MetaName("twitter:card"), "summary_large_image"),
      Update(MetaName("twitter:title"), Or(data.twitterTitle, Or(data.ogTitle, title))),
      Update(MetaName("twitter:description"), Or(data.twitterDescription, Or(data.ogDescription, description))),
      Update(MetaName("twitter:image"), Or(data.twitterImage, Or(data.ogImage, DefaultOgImage))),
      Update(MetaName("robots"), Robots(data.noindex)) ]
  }

  /** Each of the fourteen updates, by position. */
  lemma TagUpdatesAt(data: SeoData)
    requires data.title.Some? && data.description.Some?
    ensures var ups, title, description := TagUpdates(data), data.title.value, data.description.value;
      ups[0] == Update(MetaName("description"), description) &&
      ups[1] == Update(MetaName("keywords"), Or(data.keywords, DefaultKeywords)) &&
      ups[2] == Update(LinkRel("canonical"), Or(data.canonical, DefaultCanonical)) &&
      ups[3] == Update(MetaProperty("og:title"), Or(data.ogTitle, title)) &&
      ups[4] == Update(MetaProperty("og:description"), Or(data.ogDescription, description)) &&
      ups[5] == Update(MetaProperty("og:image"), Or(data.ogImage, DefaultOgImage)) &&
      ups[6] == Update(MetaProperty("og:url"), Or(data.ogUrl, Or(data.canonical, DefaultCanonical))) &&
      ups[7] == Update(MetaProperty("og:type"), "website") &&
      ups[8] == Update(MetaProperty("og:site_name"), "Semtex Technologies") &&
      ups[9] == Update(MetaName("twitter:card"), "summary_large_image") &&
      ups[10] == Update(MetaName("twitter:title"), Or(data.twitterTitle, Or(data.ogTitle, title))) &&
      ups[11] == Update(MetaName("twitter:description"), Or(data.twitterDescription, Or(data.ogDescription, description))) &&
      ups[12] == Update(MetaName("twitter:image"), Or(data.twitterImage, Or(data.ogImage, DefaultOgImage))) &&
      ups[13] == Update(MetaName("robots"), Robots(data.noindex))
  {
  }

  /** The updates of `updateSEO(seoData)`. */
  function Updates(p: SeoData): (r: seq<Update>)
    ensures |r| == 14
  {
    TagUpdates(Resolve(p))
  }

  /** The keys of the fourteen updates, in order, are `TagKeys()`. */
  lemma TagUpdatesKeys(data: SeoData)
    requires data.title.Some? && data.description.Some?
    ensures forall i :: 0 <= i < 14 ==> TagUpdates(data)[i].key == TagKeys()[i]
  {
  }

  /** The fourteen tag keys are pairwise different. */
  lemma TagKeysDistinct()
    ensures forall i, j :: 0 <= i < j < 14 ==> TagKeys()[i] != TagKeys()[j]
  {
  }

  /** The fourteen updates touch fourteen different tags. */
  lemma UpdatesDistinctKeys(p: SeoData)
    ensures DistinctKeys(Updates(p))
  {
    TagUpdatesKeys(Resolve(p));
    TagKeysDistinct();
  }

  /** Because the defaults supply og:title, og:description and og:url, a caller
      that gives only its own title, description and canonical URL still gets
      the site-wide Open Graph title, description and URL. */
  lemma OpenGraphShadowedByDefaults(p: SeoData)
    requires p.ogTitle.None? && p.ogDescription.None? && p.ogUrl.None?
    ensures Updates(p)[3].content == "Semtex Technologies"
    ensures Updates(p)[4].content == "Modern learning management systems built in Johannesburg"
    ensures Updates(p)[6].content == "https://semtex.co.za"
  {
  }

  /** twitter:title is the first non-empty of the twitter title, the Open Graph
      title and the title, after the overlay; so without its own twitter title
      a caller gets the default one, whatever Open Graph title it gives. */
  lemma TwitterTitleChain(p: SeoData)
    ensures var data := Resolve(p);
      Updates(p)[10].content == Or(data.twitterTitle, Or(data.ogTitle, data.title.value))
    ensures p.twitterTitle.None? ==> Updates(p)[10].content == "Semtex Technologies"
  {
  }

  /** The robots tag says "noindex, nofollow" exactly when the caller asks for
      `noindex: true`. */
  lemma RobotsFollowsNoindex(p: SeoData)
    ensures Updates(p)[13].content == "noindex, nofollow" <==> p.noindex == Some(true)
  {
  }

  /** og:type, og:site_name and twitter:card are fixed. */
  lemma FixedTags(p: SeoData)
    ensures Updates(p)[7] == Update(MetaProperty("og:type"), "website")
    ensures Updates(p)[8] == Update(MetaProperty("og:site_name"), "Semtex Technologies")
    ensures Updates(p)[9] == Update(MetaName("twitter:card"), "summary_large_image")
  {
  }

  /** `updateMetaTag(name, content)`. */
  method UpdateMetaTag(doc: Document, name: string, content: string)
    modifies doc`head
    ensures doc.head == Upserted(old(doc.head), MetaName(name), content)
  {
    doc.Upsert(MetaName(name), content);
  }

  /** `updateMetaProperty(property, content)`. */
  method UpdateMetaProperty(doc: Document, property: string, content: string)
    modifies doc`head
    ensures doc.head == Upserted(old(doc.head), MetaProperty(property), content)
  {
    doc.Upsert(MetaProperty(property), content);
  }

  /** `updateMetaName(name, content)`: the same lookup as `updateMetaTag`. */
  method UpdateMetaName(doc: Document, name: string, content: string)
    modifies doc`head
    ensures doc.head == Upserted(old(doc.head), MetaName(name), content)
  {
    doc.Upsert(MetaName(name), content);
  }

  /** `updateLinkTag(rel, href)`. */
  method UpdateLinkTag(doc: Document, rel: string, href: string)
    modifies doc`head
    ensures doc.head == Upserted(old(doc.head), LinkRel(rel), href)
  {
    doc.Upsert(LinkRel(rel), href);
  }

  /** `updateSEO(seoData)`: overlay the defaults, set the title, then the
      fourteen tags in order. */
  method UpdateSeo(doc: Document, p: SeoData)
    modifies doc
    ensures doc.title == Resolve(p).title.value
    ensures doc.head == ApplyAll(old(doc.head), Updates(p))
  {
    var data := Resolve(p);
    ghost var h0 := doc.head;
    ghost var ups := TagUpdates(data);
    TagUpdatesAt(data);
    assert ups[..0] == [] && ups[..14] == ups;
    doc.title := data.title.value;

    UpdateMetaTag(doc, "description", data.description.value);
    ApplyAllStep(h0, ups, 0);
    UpdateMetaTag(doc, "keywords", Or(data.keywords, DefaultKeywords));
    ApplyAllStep(h0, ups, 1);
    UpdateLinkTag(doc, "canonical", Or(data.canonical, DefaultCanonical));
    ApplyAllStep(h0, ups, 2);

    UpdateMetaProperty(doc, "og:title", Or(data.ogTitle, data.title.value));
    ApplyAllStep(h0, ups, 3);
    UpdateMetaProperty(doc, "og:description", Or(data.ogDescription, data.description.value));
    ApplyAllStep(h0, ups, 4);
    UpdateMetaProperty(doc, "og:image", Or(data.ogImage, DefaultOgImage));
    ApplyAllStep(h0, ups, 5);
    UpdateMetaProperty(doc, "og:url", Or(data.ogUrl, Or(data.canonical, DefaultCanonical)));
    ApplyAllStep(h0, ups, 6);
    UpdateMetaProperty(doc, "og:type", "website");
    ApplyAllStep(h0, ups, 7);
    UpdateMetaProperty(doc, "og:site_name", "Semtex Technologies");
    ApplyAllStep(h0, ups, 8);

    UpdateMetaName(doc, "twitter:card", "summary_large_image");
    ApplyAllStep(h0, ups, 9);
    UpdateMetaName(doc, "twitter:title", Or(data.twitterTitle, Or(data.ogTitle, data.title.value)));
    ApplyAllStep(h0, ups, 10);
    UpdateMetaName(doc, "twitter:description",
                   Or(data.twitterDescription, Or(data.ogDescription, data.description.value)));
    ApplyAllStep(h0, ups, 11);
    UpdateMetaName(doc, "twitter:image", Or(data.twitterImage, Or(data.ogImage, DefaultOgImage)));
    ApplyAllStep(h0, ups, 12);

    if data.noindex == Some(true) {
      UpdateMetaName(doc, "robots", "noindex, nofollow");
    } else {
      UpdateMetaName(doc, "robots", "index, follow");
    }
    ApplyAllStep(h0, ups, 13);
  }

  /** After `updateSEO`, each of the fourteen tags holds the value resolved for
      it, a second identical call changes nothing, and a head that had at most
      one tag per key still does. */
  lemma UpdateSeoOutcome(head: seq<Element>, p: SeoData)
    ensures forall u :: u in Updates(p) ==> ContentOf(ApplyAll(head, Updates(p)), u.key) == Some(u.content)
    ensures ApplyAll(ApplyAll(head, Updates(p)), Updates(p)) == ApplyAll(head, Updates(p))
    ensures UniqueKeys(head) ==> UniqueKeys(ApplyAll(head, Updates(p)))
  {
    UpdatesDistinctKeys(p);
    ApplyAllContent(head, Updates(p));
    ApplyAllIdempotent(head, Updates(p));
    if UniqueKeys(head) {
      ApplyAllKeepsUnique(head, Updates(p));
    }
  }

  /** `useSEO(seoData)`: update only when running in a browser and given data. */
  method UseSeo(doc: Document, hasWindow: bool, p: Option<SeoData>)
    modifies doc
    ensures hasWindow && p.Some? ==>
      doc.title == Resolve(p.value).title.value && doc.head == ApplyAll(old(doc.head), Updates(p.value))
    ensures !(hasWindow && p.Some?) ==> doc.title == old(doc.title) && doc.head == old(doc.head)
  {
    if hasWindow && p.Some? {
      UpdateSeo(doc, p.value);
    }
  }
}
