/** Schema.org structured data of `src/lib/schema.ts`: two constant JSON-LD
    records, and the `<script type="application/ld+json">` element that
    `injectSchema` replaces by id and `removeSchema` deletes. `JSON.stringify`
    is a `serialize` parameter; `typeof window` is a `hasWindow` flag. */
module Schema {
  import opened Wrappers
  import opened Lists
  import opened Head

  datatype PostalAddress = PostalAddress(kind: string, locality: string, region: string, country: string)
  datatype Person = Person(kind: string, name: string, jobTitle: string)
  datatype ContactPoint = ContactPoint(kind: string, contactType: string, url: string)
  datatype NamedOrganization = NamedOrganization(kind: string, name: string)
  datatype Offer = Offer(kind: string, priceCurrency: string, availability: string, url: string)

  /** `OrganizationSchema`. */
  datatype Organization = Organization(
    context: string, kind: string, name: string, description: string, url: string, logo: string,
    address: PostalAddress, founders: seq<Person>, sameAs: seq<string>, contactPoint: ContactPoint)

  /** `ProductSchema`. */
  datatype Product = Product(
    context: string, kind: string, name: string, description: string,
    brand: NamedOrganization, manufacturer: NamedOrganization, category: string, url: string,
    offers: Offer)

  /** The argument of `injectSchema`: either record. */
  datatype Schema = OrganizationData(organization: Organization) | ProductData(product: Product)

  const OrganizationDescription: string :=
    "Modern learning management systems and educational technology solutions built in Johannesburg, South Africa."
  const ProductDescription: string :=
    "Modern learning management system with course builder, assessments, analytics, and SSO integration."

  /** The MIME type of an embedded JSON-LD script. */
  const JsonLd: string := "application/ld+json"

  /** `getOrganizationSchema()`: the company, located in Johannesburg, Gauteng,
      South Africa, with its two co-founders. */
  function OrganizationSchema(): (r: Organization)
    ensures r.context == "https://schema.org" && r.kind == "Organization"
    ensures r.name == "Semtex Technologies" && r.url == "https://semtex.co.za"
    ensures r.address == PostalAddress("PostalAddress", "Johannesburg", "Gauteng", "ZA")
    ensures |r.founders| == 2 && forall f :: f in r.founders ==> f.kind == "Person"
    ensures r.founders[0].jobTitle == "Co-founder & CTO" && r.founders[1].jobTitle == "Co-founder & CEO"
    ensures r.contactPoint.contactType == "customer service"
  {
    Organization("https://schema.org", "Organization", "Semtex Technologies",
      OrganizationDescription, "https://semtex.co.za", "https://semtex.co.za/logo.svg",
      PostalAddress("PostalAddress", "Johannesburg", "Gauteng", "ZA"),
      [Person("Person", "Ndanganeni Nedzamba", "Co-founder & CTO"),
       Person("Person", "Prince Makhesha", "Co-founder & CEO")],
      ["https://linkedin.com/company/semtex-technologies", "https://twitter.com/semtextech"],
      ContactPoint("ContactPoint", "customer service", "https://semtex.co.za/contact"))
  }

  /** `getLMSProductSchema()`: the LMS as a software application made and
      branded by the company, offered in rand. */
  function LmsProductSchema(): (r: Product)
    ensures r.context == OrganizationSchema().context && r.kind == "SoftwareApplication"
    ensures r.name == "Semtex LMS" && r.category == "Learning Management System"
    ensures r.brand == r.manufacturer == NamedOrganization("Organization", OrganizationSchema().name)
    ensures r.offers.priceCurrency == "ZAR" && r.offers.availability == "https://schema.org/InStock"
  {
    Product("https://schema.org", "SoftwareApplication", "Semtex LMS", ProductDescription,
      NamedOrganization("Organization", "Semtex Technologies"),
      NamedOrganization("Organization", "Semtex Technologies"),
      "Learning Management System", "https://semtex.co.za/products/lms",
      Offer("Offer", "ZAR", "https://schema.org/InStock", "https://semtex.co.za/pricing"))
  }

  /** The script element `injectSchema` creates. */
  function ScriptFor(id: string, text: string): (e: Element)
    ensures e.key == ElementId(id) && e.content == text && e.scriptType == Some(JsonLd)
  {
    Element(ElementId(id), text, Some(JsonLd))
  }

  /** The head after `injectSchema`: the first element with the id removed, the
      new script appended. */
  function Injected(head: seq<Element>, id: string, text: string): (r: seq<Element>)
    ensures r == Removed(head, ElementId(id)) + [ScriptFor(id, text)]
    ensures r[|r| - 1] == ScriptFor(id, text)
  {
    Removed(head, ElementId(id)) + [ScriptFor(id, text)]
  }

  /** On a head with at most one element per key, the injected script is the
      only element with its id, so `getElementById` finds it. */
  lemma InjectedIsFound(head: seq<Element>, id: string, text: string)
    requires UniqueKeys(head)
    ensures var r := Injected(head, id, text);
      FindFirst(r, ElementId(id)) == Some(|r| - 1) && ContentOf(r, ElementId(id)) == Some(text)
  {
    var key := ElementId(id);
    var rest := Removed(head, key);
    RemovedLeavesNone(head, key);
    var r := Injected(head, id, text);
    forall j | 0 <= j < |r| - 1 ensures r[j].key != key {
      assert r[j] == rest[j];
    }
    FindFirstAt(r, key, |r| - 1);
  }

  /** `injectSchema` keeps a head with at most one element per key so. */
  lemma InjectedKeepsUnique(head: seq<Element>, id: string, text: string)
    requires UniqueKeys(head)
    ensures UniqueKeys(Injected(head, id, text))
  {
    var key := ElementId(id);
    var rest := Removed(head, key);
    RemovedLeavesNone(head, key);
    var r := Injected(head, id, text);
    forall a, b | 0 <= a < b < |r| ensures r[a].key != r[b].key {
      assert r[a] == rest[a];
      if b < |rest| {
        assert r[b] == rest[b];
      } else {
        assert rest[a].key != key;
      }
    }
  }

  /** `injectSchema` leaves every element with another key where it was,
      in order. */
  lemma InjectedKeepsOthers(head: seq<Element>, id: string, text: string)
    ensures Filter(Injected(head, id, text), OtherThan(ElementId(id))) == Filter(head, OtherThan(ElementId(id)))
  {
    var key := ElementId(id);
    RemovedKeepsOthers(head, key);
    FilterAppend(Removed(head, key), ScriptFor(id, text), OtherThan(key));
  }

  /** On a head with at most one element per key, injecting the same text
      twice leaves the head as injecting it once. */
  lemma InjectIdempotent(head: seq<Element>, id: string, text: string)
    requires UniqueKeys(head)
    ensures Injected(Injected(head, id, text), id, text) == Injected(head, id, text)
  {
    var r := Injected(head, id, text);
    InjectedIsFound(head, id, text);
    assert Removed(r, ElementId(id)) == r[..|r| - 1] == Removed(head, ElementId(id));
  }

  /** The uniqueness hypothesis is needed: with two elements carrying the id,
      the first injection removes only the first of them, and the second
      injection then removes the other, so the results differ. */
  lemma InjectTwiceWithDuplicateIds()
    ensures var head := [Element(ElementId("org"), "a", None), Element(ElementId("org"), "b", None)];
      Injected(Injected(head, "org", "c"), "org", "c") != Injected(head, "org", "c")
  {
    var head := [Element(ElementId("org"), "a", None), Element(ElementId("org"), "b", None)];
    var key := ElementId("org");
    FindFirstAt(head, key, 0);
    var once := Injected(head, "org", "c");
    assert once == [head[1], ScriptFor("org", "c")];
    FindFirstAt(once, key, 0);
    assert Injected(once, "org", "c") == [ScriptFor("org", "c"), ScriptFor("org", "c")];
  }

  /** `injectSchema(schema, id)`: without a window nothing happens; otherwise
      the existing element with the id is removed and the serialized schema
      appended as a JSON-LD script. */
  method InjectSchema(doc: Document, schema: Schema, id: string, serialize: Schema -> string, hasWindow: bool)
    modifies doc`head
    ensures hasWindow ==> doc.head == Injected(old(doc.head), id, serialize(schema))
    ensures !hasWindow ==> doc.head == old(doc.head)
  {
    if !hasWindow {
      return;
    }
    doc.Remove(ElementId(id));
    var script := Element(ElementId(id), serialize(schema), Some(JsonLd));
    doc.Append(script);
  }

  /** `removeSchema(id)`: without a window nothing happens; otherwise the
      element with the id is removed, if there is one. */
  method RemoveSchema(doc: Document, id: string, hasWindow: bool)
    modifies doc`head
    ensures hasWindow ==> doc.head == Removed(old(doc.head), ElementId(id))
    ensures !hasWindow ==> doc.head == old(doc.head)
  {
    if !hasWindow {
      return;
    }
    doc.Remove(ElementId(id));
  }

  /** `removeSchema` on a head with at most one element per key leaves no
      element with the id, keeps every other element in order, and changes
      nothing when the id is absent. */
  lemma RemoveSchemaOutcome(head: seq<Element>, id: string)
    requires UniqueKeys(head)
    ensures FindFirst(Removed(head, ElementId(id)), ElementId(id)).None?
    ensures UniqueKeys(Removed(head, ElementId(id)))
    ensures Filter(Removed(head, ElementId(id)), OtherThan(ElementId(id))) == Filter(head, OtherThan(ElementId(id)))
    ensures (forall e :: e in head ==> e.key != ElementId(id)) ==> Removed(head, ElementId(id)) == head
  {
    RemovedLeavesNone(head, ElementId(id));
    RemovedKeepsOthers(head, ElementId(id));
  }
}
