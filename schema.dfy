/** The schema.org structured data of the website: the service, breadcrumb,
    FAQ and web-page objects built from a page's data, and the service object
    of a known service page. Relative URLs are made absolute against the
    German site. The fixed Person, WebSite and Organization objects are data
    and are not modelled, apart from the offer catalogue that lists the
    service pages. */
module Schema {
  import opened Wrappers
  import opened Strings

  const BaseUrl: string := "https://wernerstrauch.de"

  /** A URL that starts with "http" is kept; any other gets the base URL in
      front of it. */
  function Absolutize(url: string): (r: string)
    ensures StartsWith(url, "http") ==> r == url
    ensures !StartsWith(url, "http") ==> r == BaseUrl + url
  {
    if StartsWith(url, "http") then url else BaseUrl + url
  }

  /** Every absolutized URL starts with "http", so absolutizing twice changes
      nothing. */
  lemma AbsolutizeIdempotent(url: string)
    ensures StartsWith(Absolutize(url), "http")
    ensures Absolutize(Absolutize(url)) == Absolutize(url)
  {
    if !StartsWith(url, "http") {
      assert (BaseUrl + url)[..4] == BaseUrl[..4];
    }
  }

  // ----------------------------------------------------------------- service

  datatype ServiceProps = ServiceProps(
    name: string, description: string, url: string, serviceType: Option<string>, image: Option<string>)

  /** The provider of every service: the consultant, with his site and
      portrait. */
  datatype Provider = Provider(name: string, url: string, image: string)

  const Person: Provider := Provider("Werner Strauch", BaseUrl, BaseUrl + "/werner-strauch.jpg")

  /** A Service object. `image` is `None` where the object has no image key.
      The area served is always Germany. */
  datatype ServiceSchema = ServiceSchema(
    name: string, description: string, url: string, serviceType: string,
    provider: Provider, areaServed: string, image: Option<string>)

  /** `generateServiceSchema`. */
  function GenerateServiceSchema(props: ServiceProps): (r: ServiceSchema)
    ensures r.name == props.name && r.description == props.description
    ensures r.url == Absolutize(props.url)
    ensures r.serviceType == if Truthy(props.serviceType) then props.serviceType.value else props.name
    ensures r.provider == Person && r.areaServed == "Germany"
    ensures r.image.Some? <==> Truthy(props.image)
    ensures r.image.Some? ==> r.image.value == Absolutize(props.image.value)
  {
    ServiceSchema(
      props.name, props.description, Absolutize(props.url),
      if Truthy(props.serviceType) then props.serviceType.value else props.name,
      Person, "Germany",
      if Truthy(props.image) then Some(Absolutize(props.image.value)) else None)
  }

  /** The properties a Service object carries. */
  function PropsOf(s: ServiceSchema): ServiceProps {
    ServiceProps(s.name, s.description, s.url, Some(s.serviceType), s.image)
  }

  /** Building a Service object again from its own fields gives the same
      object: its URLs are already absolute and its service type is set. */
  lemma ServiceSchemaStable(props: ServiceProps)
    ensures GenerateServiceSchema(PropsOf(GenerateServiceSchema(props))) == GenerateServiceSchema(props)
  {
    AbsolutizeIdempotent(props.url);
    if Truthy(props.image) {
      AbsolutizeIdempotent(props.image.value);
    }
  }

  // -------------------------------------------------------------- breadcrumbs

  datatype BreadcrumbItem = BreadcrumbItem(name: string, url: string)

  datatype ListItem = ListItem(position: nat, name: string, item: string)

  /** `generateBreadcrumbSchema`: the list elements, one per item in order,
      numbered from 1, with absolute URLs. */
  function GenerateBreadcrumbSchema(items: seq<BreadcrumbItem>): (r: seq<ListItem>)
    ensures |r| == |items|
    ensures forall i :: 0 <= i < |items| ==>
              r[i] == ListItem(i + 1, items[i].name, Absolutize(items[i].url))
  {
    seq(|items|, i requires 0 <= i < |items| =>
      ListItem(i + 1, items[i].name, Absolutize(items[i].url)))
  }

  /** The positions run 1, 2, …, n, and a prefix of the trail gives a prefix
      of the list. */
  lemma {:induction false} BreadcrumbPositions(items: seq<BreadcrumbItem>, k: nat)
    requires k <= |items|
    ensures forall i, j :: 0 <= i < j < |items| ==>
              GenerateBreadcrumbSchema(items)[i].position < GenerateBreadcrumbSchema(items)[j].position
    ensures |items| > 0 ==> GenerateBreadcrumbSchema(items)[|items| - 1].position == |items|
    ensures GenerateBreadcrumbSchema(items[..k]) == GenerateBreadcrumbSchema(items)[..k]
  {
    var whole := GenerateBreadcrumbSchema(items);
    var part := GenerateBreadcrumbSchema(items[..k]);
    assert forall i :: 0 <= i < k ==> part[i] == whole[i];
  }

  // --------------------------------------------------------------------- FAQ

  datatype FaqItem = FaqItem(question: string, answer: string)

  /** A Question with its accepted Answer. */
  datatype Question = Question(name: string, acceptedAnswer: string)

  /** `generateFAQSchema`: one Question per item, in order. */
  function GenerateFaqSchema(faqs: seq<FaqItem>): (r: seq<Question>)
    ensures |r| == |faqs|
  {
    seq(|faqs|, i requires 0 <= i < |faqs| => Question(faqs[i].question, faqs[i].answer))
  }

  /** The items a FAQ page was built from. */
  function FaqItems(questions: seq<Question>): seq<FaqItem> {
    seq(|questions|, i requires 0 <= i < |questions| =>
      FaqItem(questions[i].name, questions[i].acceptedAnswer))
  }

  /** The FAQ page loses nothing: each question's name is the item's question
      and its accepted answer the item's answer, so the items can be read
      back. */
  lemma FaqRoundTrip(faqs: seq<FaqItem>)
    ensures FaqItems(GenerateFaqSchema(faqs)) == faqs
  {
    var back := FaqItems(GenerateFaqSchema(faqs));
    assert forall i :: 0 <= i < |faqs| ==> back[i] == faqs[i];
  }

  // ----------------------------------------------------------------- web page

  datatype WebPageProps = WebPageProps(
    name: string, description: string, url: string, dateModified: Option<string>)

  /** A WebPage object; `dateModified` is `None` where it has no such key.
      It is German and part of the site. */
  datatype WebPageSchema = WebPageSchema(
    name: string, description: string, url: string, inLanguage: string,
    isPartOf: string, about: string, dateModified: Option<string>)

  /** `generateWebPageSchema`. */
  function GenerateWebPageSchema(props: WebPageProps): (r: WebPageSchema)
    ensures r.name == props.name && r.description == props.description
    ensures r.url == Absolutize(props.url) && StartsWith(r.url, "http")
    ensures r.inLanguage == "de-DE" && r.isPartOf == BaseUrl && r.about == Person.name
    ensures r.dateModified.Some? <==> Truthy(props.dateModified)
    ensures r.dateModified.Some? ==> r.dateModified == props.dateModified
  {
    AbsolutizeIdempotent(props.url);
    WebPageSchema(
      props.name, props.description, Absolutize(props.url), "de-DE", BaseUrl, Person.name,
      if Truthy(props.dateModified) then props.dateModified else None)
  }

  // ------------------------------------------------------- service pages

  datatype ServiceEntry = ServiceEntry(name: string, description: string, serviceType: string)

  /** The keys of `SERVICE_SCHEMAS`: the service pages. */
  datatype ServicePage =
    | Audit | Strategie | Beratung | Technologieberatung | Workshop | Sparring
    | Umsetzungsbegleitung | Projektleitung | InterimManagement

  function ServiceSlug(p: ServicePage): string {
    match p
    case Audit => "ecommerce-audit"
    case Strategie => "ecommerce-strategie"
    case Beratung => "ecommerce-beratung"
    case Technologieberatung => "technologieberatung"
    case Workshop => "ecommerce-workshop"
    case Sparring => "ecommerce-sparring"
    case Umsetzungsbegleitung => "umsetzungsbegleitung"
    case Projektleitung => "projektleitung"
    case InterimManagement => "interim-management"
  }

  /** `SERVICE_SCHEMAS`: the entry of each service page. */
  function ServiceSchemas(p: ServicePage): ServiceEntry {
    match p
    case Audit => ServiceEntry("E-Commerce Audit", ServiceDescription(p), "E-Commerce Audit")
    case Strategie => ServiceEntry("E-Commerce Strategie", ServiceDescription(p), "E-Commerce Strategieberatung")
    case Beratung => ServiceEntry("E-Commerce Beratung", ServiceDescription(p), "E-Commerce Consulting")
    case Technologieberatung => ServiceEntry("Technologieberatung", ServiceDescription(p), "IT-Beratung")
    case Workshop => ServiceEntry("E-Commerce Workshop", ServiceDescription(p), "Workshop")
    case Sparring => ServiceEntry("E-Commerce Sparring", ServiceDescription(p), "Business Coaching")
    case Umsetzungsbegleitung => ServiceEntry("Umsetzungsbegleitung", ServiceDescription(p), "Projektbegleitung")
    case Projektleitung => ServiceEntry("E-Commerce Projektleitung", ServiceDescription(p), "Projektmanagement")
    case InterimManagement => ServiceEntry("E-Commerce Interim Management", ServiceDescription(p), "Interim Management")
  }

  /** The description of each service page. */
  function ServiceDescription(p: ServicePage): string {
    match p
    case Audit =>
      "Systematische Analyse Ihres Online-Shops: Technik, Prozesse, Performance und Conversion. Identifizierung von Potenzialen und konkreten Handlungsempfehlungen."
    case Strategie =>
      "Entwicklung einer klaren E-Commerce Roadmap für nachhaltiges Wachstum. Von der Marktanalyse über Positionierung bis zur Technologie-Auswahl."
    case Beratung =>
      "Strategische Begleitung für Ihr E-Commerce Business. Pragmatische Beratung auf Augenhöhe für fundierte Entscheidungen."
    case Technologieberatung =>
      "Fundierte Entscheidungshilfe bei der Auswahl von Shopsystemen, ERP-Lösungen und E-Commerce Technologien. Herstellerunabhängig und praxisorientiert."
    case Workshop =>
      "Fokussierte Arbeitssessions mit konkreten Ergebnissen. Strategie-Workshops, Technologie-Evaluierungen und Team-Enablement."
    case Sparring =>
      "Ihr externer Sparringspartner für strategische E-Commerce Entscheidungen. Regelmäßiger Austausch auf Augenhöhe."
    case Umsetzungsbegleitung =>
      "Begleitung Ihrer E-Commerce Projekte von der Konzeption bis zum Go-Live. Qualitätssicherung und Steuerung externer Dienstleister."
    case Projektleitung =>
      "Professionelle Leitung Ihrer E-Commerce Projekte. Termingerechte Umsetzung, Stakeholder-Management und Risikominimierung."
    case InterimManagement =>
      "Führung auf Zeit für kritische Phasen. Übernahme von Verantwortung als Interim E-Commerce Manager oder Head of Digital."
  }

  /** The service page a slug names, if any. */
  function ParseServiceSlug(slug: string): (r: Option<ServicePage>)
    ensures r.Some? ==> ServiceSlug(r.value) == slug
    ensures r.None? ==> forall p :: ServiceSlug(p) != slug
  {
    if slug == "ecommerce-audit" then Some(Audit)
    else if slug == "ecommerce-strategie" then Some(Strategie)
    else if slug == "ecommerce-beratung" then Some(Beratung)
    else if slug == "technologieberatung" then Some(Technologieberatung)
    else if slug == "ecommerce-workshop" then Some(Workshop)
    else if slug == "ecommerce-sparring" then Some(Sparring)
    else if slug == "umsetzungsbegleitung" then Some(Umsetzungsbegleitung)
    else if slug == "projektleitung" then Some(Projektleitung)
    else if slug == "interim-management" then Some(InterimManagement)
    else None
  }

  /** A path from the site root is not absolute. */
  lemma RootPathIsRelative(slug: string)
    ensures Absolutize("/" + slug) == BaseUrl + "/" + slug
  {
    if |"/" + slug| >= 4 {
      assert ("/" + slug)[..4][0] == '/';
    }
  }

  /** The Service object of a service page: its entry's name, description
      and service type, at `/<slug>` on the German site, without an image. */
  function ServicePageSchema(page: ServicePage): (r: ServiceSchema)
    ensures var e := ServiceSchemas(page);
      && r.name == e.name && r.description == e.description
      && r.serviceType == e.serviceType
      && r.url == BaseUrl + "/" + ServiceSlug(page)
      && r.image.None?
  {
    var e := ServiceSchemas(page);
    RootPathIsRelative(ServiceSlug(page));
    ServiceTypeSet(page);
    var props := ServiceProps(e.name, e.description, "/" + ServiceSlug(page), Some(e.serviceType), None);
    assert Truthy(props.serviceType);
    GenerateServiceSchema(props)
  }

  /** `getServiceSchemaForPage`: nothing for a slug that is not a service
      page, otherwise that page's Service object. */
  function GetServiceSchemaForPage(slug: string): (r: Option<ServiceSchema>)
    ensures r.None? <==> forall p :: ServiceSlug(p) != slug
    ensures forall p :: ServiceSlug(p) == slug ==> r == Some(ServicePageSchema(p))
  {
    match ParseServiceSlug(slug)
    case None => None
    case Some(page) =>
      ServiceSlugInjective(page, slug);
      Some(ServicePageSchema(page))
  }

  /** Only one service page has a given slug. */
  lemma ServiceSlugInjective(p: ServicePage, slug: string)
    requires ServiceSlug(p) == slug
    ensures forall q :: ServiceSlug(q) == slug ==> q == p
  {
    forall q | ServiceSlug(q) == slug ensures q == p {
      ParseServiceSlugOf(q);
      ParseServiceSlugOf(p);
    }
  }

  /** A service page's slug names that page. */
  lemma ParseServiceSlugOf(p: ServicePage)
    ensures ParseServiceSlug(ServiceSlug(p)) == Some(p)
  {
  }

  /** Each entry's service type is set, so a service page keeps its own
      rather than falling back to its name. */
  lemma ServiceTypeSet(p: ServicePage)
    ensures |ServiceSchemas(p).serviceType| > 0
  {
    match p
    case Audit =>
    case Strategie =>
    case Beratung =>
    case Technologieberatung =>
    case Workshop =>
    case Sparring =>
    case Umsetzungsbegleitung =>
    case Projektleitung =>
    case InterimManagement =>
  }

  /** The offers of the ProfessionalService object's catalogue: a name and an
      absolute URL each. */
  datatype Offer = Offer(name: string, url: string)

  function OfferCatalog(): seq<Offer> {
    [ Offer("E-Commerce Audit", BaseUrl + "/" + "ecommerce-audit"),
      Offer("E-Commerce Strategie", BaseUrl + "/" + "ecommerce-strategie"),
      Offer("E-Commerce Beratung", BaseUrl + "/" + "ecommerce-beratung"),
      Offer("Technologieberatung", BaseUrl + "/" + "technologieberatung"),
      Offer("E-Commerce Workshop", BaseUrl + "/" + "ecommerce-workshop"),
      Offer("E-Commerce Sparring", BaseUrl + "/" + "ecommerce-sparring"),
      Offer("Umsetzungsbegleitung", BaseUrl + "/" + "umsetzungsbegleitung"),
      Offer("Projektleitung", BaseUrl + "/" + "projektleitung"),
      Offer("Interim Management", BaseUrl + "/" + "interim-management") ]
  }

  /** The service pages in the catalogue's order. */
  function CatalogOrder(): seq<ServicePage> {
    [Audit, Strategie, Beratung, Technologieberatung, Workshop, Sparring,
     Umsetzungsbegleitung, Projektleitung, InterimManagement]
  }

  /** Every service page is in the catalogue's order. */
  lemma CatalogOrderComplete(p: ServicePage)
    ensures p in CatalogOrder()
  {
    var order := CatalogOrder();
    match p
    case Audit => assert order[0] == p;
    case Strategie => assert order[1] == p;
    case Beratung => assert order[2] == p;
    case Technologieberatung => assert order[3] == p;
    case Workshop => assert order[4] == p;
    case Sparring => assert order[5] == p;
    case Umsetzungsbegleitung => assert order[6] == p;
    case Projektleitung => assert order[7] == p;
    case InterimManagement => assert order[8] == p;
  }

  /** Offer i points at `/<slug>` of the i-th page. */
  lemma CatalogUrlAt(i: nat)
    requires i < |OfferCatalog()|
    ensures OfferCatalog()[i].url == BaseUrl + "/" + ServiceSlug(CatalogOrder()[i])
  {
    var p := CatalogOrder()[i];
    var catalog := OfferCatalog();
    assert |catalog| == 9;
    if i == 0 {
      assert p == Audit && catalog[0].url == BaseUrl + "/" + ServiceSlug(Audit);
    } else if i == 1 {
      assert p == Strategie && catalog[1].url == BaseUrl + "/" + ServiceSlug(Strategie);
    } else if i == 2 {
      assert p == Beratung && catalog[2].url == BaseUrl + "/" + ServiceSlug(Beratung);
    } else if i == 3 {
      assert p == Technologieberatung && catalog[3].url == BaseUrl + "/" + ServiceSlug(Technologieberatung);
    } else if i == 4 {
      assert p == Workshop && catalog[4].url == BaseUrl + "/" + ServiceSlug(Workshop);
    } else if i == 5 {
      assert p == Sparring && catalog[5].url == BaseUrl + "/" + ServiceSlug(Sparring);
    } else if i == 6 {
      assert p == Umsetzungsbegleitung && catalog[6].url == BaseUrl + "/" + ServiceSlug(Umsetzungsbegleitung);
    } else if i == 7 {
      assert p == Projektleitung && catalog[7].url == BaseUrl + "/" + ServiceSlug(Projektleitung);
    } else {
      assert i == 8;
      assert p == InterimManagement && catalog[8].url == BaseUrl + "/" + ServiceSlug(InterimManagement);
    }
  }

  /** The catalogue offers exactly the service pages, once each: offer i
      points at the URL of the i-th page's Service object. */
  lemma CatalogMatchesServicePages()
    ensures |OfferCatalog()| == |CatalogOrder()|
    ensures forall p :: p in CatalogOrder()
    ensures forall i :: 0 <= i < |OfferCatalog()| ==>
              OfferCatalog()[i].url == ServicePageSchema(CatalogOrder()[i]).url
  {
    forall p ensures p in CatalogOrder() {
      CatalogOrderComplete(p);
    }
    forall i | 0 <= i < |OfferCatalog()|
      ensures OfferCatalog()[i].url == ServicePageSchema(CatalogOrder()[i]).url
    {
      CatalogUrlAt(i);
      assert ServicePageSchema(CatalogOrder()[i]).url == BaseUrl + "/" + ServiceSlug(CatalogOrder()[i]);
    }
  }
}
