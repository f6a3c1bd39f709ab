/** The contact form endpoint (`POST /api/contact`): it picks the configuration
    of the site the form was sent from, turns the form's steps into an ordered
    list of labelled sections, renders a subject and a plain-text body from
    them, hands the mail to the mail provider and maps the outcome to a
    response status. */
module Contact {
  import opened Wrappers
  import opened Strings
  import opened Seqs

  // ---------------------------------------------------------------- domains

  /** The sites that share the endpoint, each with its own configuration. */
  datatype DomainId = WernerStrauch | KiAgentur | ShopMarketing

  /** The `domain` the destructuring falls back to when the form has none. */
  const DefaultDomain: string := "wernerstrauch"

  /** `domain = "wernerstrauch"` in the destructuring: the default applies
      only to a missing field, not to an empty one. */
  function ResolveDomain(raw: Option<string>): (r: string)
    ensures raw.None? ==> r == DefaultDomain
    ensures raw.Some? ==> r == raw.value
  {
    raw.GetOr(DefaultDomain)
  }

  /** The key of `domainConfigs` a domain names, if it names one. */
  function KnownDomain(domain: string): Option<DomainId> {
    if domain == "wernerstrauch" then Some(WernerStrauch)
    else if domain == "ki-agentur" then Some(KiAgentur)
    else if domain == "shop-marketing" then Some(ShopMarketing)
    else None
  }

  /** `domainConfigs[domain] || defaultConfig`: a domain without its own
      configuration is served with the Werner Strauch one. */
  function ConfigOf(domain: string): (r: DomainId)
    ensures r == KiAgentur <==> domain == "ki-agentur"
    ensures r == ShopMarketing <==> domain == "shop-marketing"
    ensures r == WernerStrauch <==> KnownDomain(domain) == None || domain == "wernerstrauch"
  {
    KnownDomain(domain).GetOr(WernerStrauch)
  }

  /** `isKiAgentur` and `isWernerStrauch` compare the domain string itself,
      not the configuration it resolved to. */
  predicate IsKi(domain: string) { domain == "ki-agentur" }
  predicate IsWs(domain: string) { domain == "wernerstrauch" }

  function Name(d: DomainId): string {
    match d
    case WernerStrauch => "Werner Strauch"
    case KiAgentur => "KI Agentur"
    case ShopMarketing => "Shop Marketing"
  }

  function FromEmail(d: DomainId): string {
    match d
    case WernerStrauch => "Werner Strauch <kontakt@wernerstrauch.de>"
    case KiAgentur => "KI Agentur <info@digitalsprung.de>"
    case ShopMarketing => "Shop Marketing <info@digitalsprung.de>"
  }

  function ToEmail(d: DomainId): string {
    match d
    case WernerStrauch => "kontakt@wernerstrauch.de"
    case KiAgentur => "kontakt@ki-agentur.com"
    case ShopMarketing => "kontakt@shop-marketing.com"
  }

  /** Every site sends a blind copy to the same address. */
  function BccEmail(d: DomainId): string {
    "werner.strauch@digitalsprung.de"
  }

  /** The colour of the highlighted value and of links in the mail. */
  function PrimaryColor(d: DomainId): string {
    match d
    case WernerStrauch => "#c8ff00"
    case KiAgentur => "#7c3aed"
    case ShopMarketing => "#6366f1"
  }

  // ---------------------------------------------------------- label tables

  /** The `stepLabels` tables a configuration may have. */
  datatype TableName = Interest | Channel | Goal | TeamSize | Timeline | Budget | Platform

  /** A table from the form's value keys to the labels shown in the mail. */
  type LabelTable = map<string, string>

  const InterestLabels: LabelTable :=
    map["ecommerce-audit" := "E-Commerce Audit", "ecommerce-strategie" := "E-Commerce Strategie",
        "ecommerce-beratung" := "E-Commerce Beratung", "technologieberatung" := "Technologieberatung",
        "projektleitung" := "Projektleitung", "interim-management" := "Interim Management",
        "sonstiges" := "Sonstiges"]

  const KiChannelLabels: LabelTable :=
    map["ki-agenten" := "KI-Agenten", "ki-chatbots" := "KI-Chatbots",
        "prozessautomatisierung" := "Prozessautomatisierung", "ki-beratung" := "KI-Beratung",
        "unsicher" := "Noch unsicher"]

  const KiGoalLabels: LabelTable :=
    map["prozesse-automatisieren" := "Prozesse automatisieren", "kosten-senken" := "Kosten senken",
        "wissen-chatbar" := "Wissen chatbar machen", "kundenservice" := "Kundenservice verbessern",
        "skalieren" := "Skalieren ohne Mehraufwand"]

  const TeamSizeLabels: LabelTable :=
    map["1-10" := "1-10 Mitarbeiter", "11-50" := "11-50 Mitarbeiter", "51-200" := "51-200 Mitarbeiter",
        "200+" := "200+ Mitarbeiter"]

  const TimelineLabels: LabelTable :=
    map["sofort" := "So schnell wie möglich", "1-3-monate" := "In 1-3 Monaten",
        "3-6-monate" := "In 3-6 Monaten", "nur-informieren" := "Nur informieren"]

  const ShopChannelLabels: LabelTable :=
    map["google-ads" := "Google Ads", "meta-ads" := "Meta Ads", "email-marketing" := "E-Mail Marketing",
        "full-service" := "Performance Marketing (Full-Service)", "unsicher" := "Noch unsicher"]

  const ShopGoalLabels: LabelTable :=
    map["mehr-umsatz" := "Mehr Umsatz generieren", "roas-verbessern" := "ROAS verbessern",
        "neukunden" := "Neukunden gewinnen", "bestandskunden" := "Bestandskunden aktivieren"]

  const BudgetLabels: LabelTable :=
    map["unter-5k" := "Unter 5.000 €", "5k-15k" := "5.000 € - 15.000 €",
        "15k-50k" := "15.000 € - 50.000 €", "ueber-50k" := "Über 50.000 €"]

  const PlatformLabels: LabelTable :=
    map["shopify" := "Shopify", "woocommerce" := "WooCommerce", "shopware" := "Shopware",
        "andere" := "Andere"]

  /** `config.stepLabels[table]`, the empty table where the configuration
      has none (`labels.goal?.[…]` is then undefined). */
  function Labels(d: DomainId, t: TableName): LabelTable {
    match d
    case WernerStrauch =>
      if t == Interest then InterestLabels else map[]
    case KiAgentur =>
      (match t
       case Channel => KiChannelLabels
       case Goal => KiGoalLabels
       case TeamSize => TeamSizeLabels
       case Timeline => TimelineLabels
       case _ => map[])
    case ShopMarketing =>
      (match t
       case Channel => ShopChannelLabels
       case Goal => ShopGoalLabels
       case Budget => BudgetLabels
       case Platform => PlatformLabels
       case _ => map[])
  }

  /** `table[key] || key`: the label, or the key itself when the table has
      no non-empty label for it. */
  function LabelOr(table: LabelTable, key: string): (r: string)
    ensures key !in table ==> r == key
    ensures key in table && table[key] != "" ==> r == table[key]
    ensures key != "" ==> r != ""
  {
    if key in table && table[key] != "" then table[key] else key
  }

  /** The empty string and the text `undefined` (what a missing value
      becomes as a property key). */
  predicate Undeclared(table: LabelTable) {
    "" !in table && "undefined" !in table
  }

  /** Neither the empty string nor `undefined` is a key of the tables the
      subject looks the first step up in. */
  lemma FirstStepTablesUndeclared()
    ensures Undeclared(InterestLabels) && Undeclared(KiChannelLabels) && Undeclared(ShopChannelLabels)
  {
  }

  // --------------------------------------------------------------- the form

  /** The JSON body of the request; a field the sender left out is `None`. */
  datatype ContactForm = ContactForm(
    domain: Option<string>,
    step1: Option<string>,
    step2: Option<string>,
    step3: Option<string>,
    step4: Option<string>,
    firstName: Option<string>,
    lastName: Option<string>,
    email: Option<string>,
    company: Option<string>,
    shopUrl: Option<string>,
    phone: Option<string>,
    message: Option<string>)

  /** One block of the mail: a label, the value shown, and whether it is the
      highlighted one or a link. */
  datatype Section = Section(title: string, value: string, highlight: bool, isLink: bool)

  /** The value shown for a step: the site's label for the key, or the key. */
  function StepValue(domain: string, t: TableName, key: string): string {
    LabelOr(Labels(ConfigOf(domain), t), key)
  }

  /** The first step's section: "KI-Bereich" on the KI site, "Interesse an"
      with the interest table on the Werner Strauch site, "Marketing-Kanal"
      everywhere else; the channel table gives the value except on the Werner
      Strauch site. It is the only highlighted section. */
  function ChannelSection(domain: string, key: string): Section {
    if IsKi(domain) then Section("KI-Bereich", StepValue(domain, Channel, key), true, false)
    else if IsWs(domain) then Section("Interesse an", StepValue(domain, Interest, key), true, false)
    else Section("Marketing-Kanal", StepValue(domain, Channel, key), true, false)
  }

  function GoalSection(domain: string, key: string): Section {
    Section("Hauptziel", StepValue(domain, Goal, key), false, false)
  }

  /** The third step is the team size on the KI site and the advertising
      budget everywhere else. */
  function Step3Section(domain: string, key: string): Section {
    if IsKi(domain) then Section("Teamgröße", StepValue(domain, TeamSize, key), false, false)
    else Section("Monatliches Werbebudget", StepValue(domain, Budget, key), false, false)
  }

  /** The fourth step is the time frame on the KI site and the shop system
      everywhere else. */
  function Step4Section(domain: string, key: string): Section {
    if IsKi(domain) then Section("Zeithorizont", StepValue(domain, Timeline, key), false, false)
    else Section("Shopsystem", StepValue(domain, Platform, key), false, false)
  }

  function CompanySection(company: string): Section {
    Section("Unternehmen", company, false, false)
  }

  /** The shop address is the only section shown as a link. */
  function ShopUrlSection(url: string): Section {
    Section("Shop-URL", url, false, true)
  }

  function MessageSection(message: string): Section {
    Section("Nachricht", message, false, false)
  }

  /** A section that is present exactly when its field is truthy. */
  function When(field: Option<string>, s: Section): Option<Section> {
    if Truthy(field) then Some(s) else None
  }

  function ChannelCandidate(domain: string, f: ContactForm): Option<Section> {
    When(f.step1, ChannelSection(domain, f.step1.GetOr("")))
  }

  function GoalCandidate(domain: string, f: ContactForm): Option<Section> {
    When(f.step2, GoalSection(domain, f.step2.GetOr("")))
  }

  function Step3Candidate(domain: string, f: ContactForm): Option<Section> {
    When(f.step3, Step3Section(domain, f.step3.GetOr("")))
  }

  function Step4Candidate(domain: string, f: ContactForm): Option<Section> {
    When(f.step4, Step4Section(domain, f.step4.GetOr("")))
  }

  function CompanyCandidate(f: ContactForm): Option<Section> {
    When(f.company, CompanySection(f.company.GetOr("")))
  }

  function ShopUrlCandidate(f: ContactForm): Option<Section> {
    When(f.shopUrl, ShopUrlSection(f.shopUrl.GetOr("")))
  }

  function MessageCandidate(f: ContactForm): Option<Section> {
    When(f.message, MessageSection(f.message.GetOr("")))
  }

  /** The sections of the mail: the seven possible sections in their fixed
      order, each present exactly when its field is truthy. */
  function Sections(domain: string, f: ContactForm): seq<Section> {
    Assemble(ChannelCandidate(domain, f), GoalCandidate(domain, f), Step3Candidate(domain, f),
             Step4Candidate(domain, f), CompanyCandidate(f), ShopUrlCandidate(f), MessageCandidate(f))
  }

  /** The present ones of seven possible sections, in order. */
  function Assemble(c1: Option<Section>, c2: Option<Section>, c3: Option<Section>, c4: Option<Section>,
                    c5: Option<Section>, c6: Option<Section>, c7: Option<Section>): seq<Section> {
    Present(c1) + (Present(c2) + (Present(c3) + (Present(c4) + (Present(c5) + (Present(c6) + Present(c7))))))
  }

  /** `if (field) sections.push(make(field))`. */
  method PushWhen(sections: seq<Section>, field: Option<string>, make: string -> Section)
    returns (r: seq<Section>)
    ensures r == sections + Present(When(field, make(field.GetOr(""))))
  {
    r := sections;
    if Truthy(field) {
      r := r + [make(field.value)];
    }
  }

  /** The first step's push onto the empty `sections`: the section starts
      with the "Marketing-Kanal" title and the channel table, and switches to
      the site's own title (and, on the Werner Strauch site, the interest
      table). */
  method PushChannel(domain: string, channel: Option<string>) returns (sections: seq<Section>)
    ensures sections == Present(When(channel, ChannelSection(domain, channel.GetOr(""))))
  {
    sections := [];
    if Truthy(channel) {
      var labels := ConfigOf(domain);
      var title := "Marketing-Kanal";
      var value := LabelOr(Labels(labels, Channel), channel.value);
      if domain == "ki-agentur" {
        title := "KI-Bereich";
      } else if domain == "wernerstrauch" {
        title := "Interesse an";
        value := LabelOr(Labels(labels, Interest), channel.value);
      }
      sections := sections + [Section(title, value, true, false)];
    }
  }

  /** The conditional pushes onto `sections`, in the order of the form's
      steps. */
  method BuildSections(domain: string, f: ContactForm) returns (sections: seq<Section>)
    ensures sections == Sections(domain, f)
  {
    sections := PushChannel(domain, f.step1);
    sections := PushWhen(sections, f.step2, (v: string) => GoalSection(domain, v));
    sections := PushWhen(sections, f.step3, (v: string) => Step3Section(domain, v));
    sections := PushWhen(sections, f.step4, (v: string) => Step4Section(domain, v));
    sections := PushWhen(sections, f.company, CompanySection);
    sections := PushWhen(sections, f.shopUrl, ShopUrlSection);
    sections := PushWhen(sections, f.message, MessageSection);
    Reassociate(Present(ChannelCandidate(domain, f)), Present(GoalCandidate(domain, f)), Present(Step3Candidate(domain, f)),
                Present(Step4Candidate(domain, f)), Present(CompanyCandidate(f)), Present(ShopUrlCandidate(f)),
                Present(MessageCandidate(f)));
  }

  // ------------------------------------------------------ what the list is

  /** 1 for a present section, 0 for a missing one. */
  function Count(c: Option<Section>): nat {
    if c.Some? then 1 else 0
  }

  /** A property that a section has whenever it is present. */
  predicate HoldsFor(c: Option<Section>, p: Section -> bool) {
    c.Some? ==> p(c.value)
  }

  lemma AssembleCount(c1: Option<Section>, c2: Option<Section>, c3: Option<Section>, c4: Option<Section>,
                      c5: Option<Section>, c6: Option<Section>, c7: Option<Section>)
    ensures |Assemble(c1, c2, c3, c4, c5, c6, c7)| == Count(c1) + Count(c2) + Count(c3) + Count(c4) + Count(c5) + Count(c6) + Count(c7)
  {
  }

  lemma AssembleFirst(c1: Option<Section>, c2: Option<Section>, c3: Option<Section>, c4: Option<Section>,
                      c5: Option<Section>, c6: Option<Section>, c7: Option<Section>)
    requires c1.Some?
    ensures |Assemble(c1, c2, c3, c4, c5, c6, c7)| > 0 && Assemble(c1, c2, c3, c4, c5, c6, c7)[0] == c1.value
  {
  }

  lemma AssembleLast(c1: Option<Section>, c2: Option<Section>, c3: Option<Section>, c4: Option<Section>,
                     c5: Option<Section>, c6: Option<Section>, c7: Option<Section>)
    requires c7.Some?
    ensures var r := Assemble(c1, c2, c3, c4, c5, c6, c7); |r| > 0 && r[|r| - 1] == c7.value
  {
  }

  /** Every section of a list has the property. */
  predicate All(sections: seq<Section>, p: Section -> bool) {
    forall j :: 0 <= j < |sections| ==> p(sections[j])
  }

  lemma PresentThen(c: Option<Section>, rest: seq<Section>, p: Section -> bool)
    requires HoldsFor(c, p) && All(rest, p)
    ensures All(Present(c) + rest, p)
  {
  }

  /** The last six possible sections, when each has the property if present. */
  lemma LaterAll(c2: Option<Section>, c3: Option<Section>, c4: Option<Section>,
                 c5: Option<Section>, c6: Option<Section>, c7: Option<Section>, p: Section -> bool)
    requires HoldsFor(c2, p) && HoldsFor(c3, p) && HoldsFor(c4, p)
    requires HoldsFor(c5, p) && HoldsFor(c6, p) && HoldsFor(c7, p)
    ensures All(Present(c2) + (Present(c3) + (Present(c4) + (Present(c5) + (Present(c6) + Present(c7))))), p)
  {
    PresentThen(c7, [], p);
    assert Present(c7) + [] == Present(c7);
    PresentThen(c6, Present(c7), p);
    PresentThen(c5, Present(c6) + Present(c7), p);
    PresentThen(c4, Present(c5) + (Present(c6) + Present(c7)), p);
    PresentThen(c3, Present(c4) + (Present(c5) + (Present(c6) + Present(c7))), p);
    PresentThen(c2, Present(c3) + (Present(c4) + (Present(c5) + (Present(c6) + Present(c7)))), p);
  }

  /** A section after the first present one is one of the last six. */
  lemma AssembleLater(c1: Option<Section>, c2: Option<Section>, c3: Option<Section>, c4: Option<Section>,
                      c5: Option<Section>, c6: Option<Section>, c7: Option<Section>, p: Section -> bool, i: nat)
    requires i < |Assemble(c1, c2, c3, c4, c5, c6, c7)| && (i > 0 || c1.None?)
    requires HoldsFor(c2, p) && HoldsFor(c3, p) && HoldsFor(c4, p)
    requires HoldsFor(c5, p) && HoldsFor(c6, p) && HoldsFor(c7, p)
    ensures p(Assemble(c1, c2, c3, c4, c5, c6, c7)[i])
  {
    LaterAll(c2, c3, c4, c5, c6, c7, p);
    var later := Present(c2) + (Present(c3) + (Present(c4) + (Present(c5) + (Present(c6) + Present(c7)))));
    assert Assemble(c1, c2, c3, c4, c5, c6, c7)[i] == later[i - Count(c1)];
  }

  /** The pushes build the list from the left; it is the same list. */
  lemma Reassociate(a: seq<Section>, b: seq<Section>, c: seq<Section>, d: seq<Section>,
                    e: seq<Section>, g: seq<Section>, h: seq<Section>)
    ensures a + b + c + d + e + g + h == a + (b + (c + (d + (e + (g + h)))))
  {
    assert a + b + c + d + e + g + h == a + b + c + d + e + (g + h);
    assert a + b + c + d + e + (g + h) == a + b + c + d + (e + (g + h));
    assert a + b + c + d + (e + (g + h)) == a + b + c + (d + (e + (g + h)));
    assert a + b + c + (d + (e + (g + h))) == a + b + (c + (d + (e + (g + h))));
    assert a + b + (c + (d + (e + (g + h)))) == a + (b + (c + (d + (e + (g + h)))));
  }

  /** Every present section, wherever it is. */
  lemma AssembleAll(c1: Option<Section>, c2: Option<Section>, c3: Option<Section>, c4: Option<Section>,
                    c5: Option<Section>, c6: Option<Section>, c7: Option<Section>, p: Section -> bool)
    requires HoldsFor(c1, p) && HoldsFor(c2, p) && HoldsFor(c3, p) && HoldsFor(c4, p)
    requires HoldsFor(c5, p) && HoldsFor(c6, p) && HoldsFor(c7, p)
    ensures All(Assemble(c1, c2, c3, c4, c5, c6, c7), p)
  {
    LaterAll(c2, c3, c4, c5, c6, c7, p);
    PresentThen(c1, Present(c2) + (Present(c3) + (Present(c4) + (Present(c5) + (Present(c6) + Present(c7))))), p);
  }

  /** The number of the form's seven step and detail fields that are
      truthy. */
  function TruthyFields(f: ContactForm): nat {
    (if Truthy(f.step1) then 1 else 0) + (if Truthy(f.step2) then 1 else 0)
    + (if Truthy(f.step3) then 1 else 0) + (if Truthy(f.step4) then 1 else 0)
    + (if Truthy(f.company) then 1 else 0) + (if Truthy(f.shopUrl) then 1 else 0)
    + (if Truthy(f.message) then 1 else 0)
  }

  /** One section per truthy field, and no other. */
  lemma SectionCount(domain: string, f: ContactForm)
    ensures |Sections(domain, f)| == TruthyFields(f)
  {
    AssembleCount(ChannelCandidate(domain, f), GoalCandidate(domain, f), Step3Candidate(domain, f),
                  Step4Candidate(domain, f), CompanyCandidate(f), ShopUrlCandidate(f), MessageCandidate(f));
  }

  /** A truthy first step gives the first section. */
  lemma ChannelComesFirst(domain: string, f: ContactForm)
    requires Truthy(f.step1)
    ensures |Sections(domain, f)| > 0 && Sections(domain, f)[0] == ChannelSection(domain, f.step1.value)
  {
    AssembleFirst(ChannelCandidate(domain, f), GoalCandidate(domain, f), Step3Candidate(domain, f),
                  Step4Candidate(domain, f), CompanyCandidate(f), ShopUrlCandidate(f), MessageCandidate(f));
  }

  /** A truthy message gives the last section. */
  lemma MessageComesLast(domain: string, f: ContactForm)
    requires Truthy(f.message)
    ensures |Sections(domain, f)| > 0
    ensures Sections(domain, f)[|Sections(domain, f)| - 1] == MessageSection(f.message.value)
  {
    AssembleLast(ChannelCandidate(domain, f), GoalCandidate(domain, f), Step3Candidate(domain, f),
                 Step4Candidate(domain, f), CompanyCandidate(f), ShopUrlCandidate(f), MessageCandidate(f));
  }

  /** Only the first step's section is highlighted, and it always is. */
  lemma OnlyChannelHighlighted(domain: string, f: ContactForm, i: nat)
    requires i < |Sections(domain, f)|
    ensures Sections(domain, f)[i].highlight <==> i == 0 && Truthy(f.step1)
  {
    if i == 0 && Truthy(f.step1) {
      ChannelComesFirst(domain, f);
    } else {
      AssembleLater(ChannelCandidate(domain, f), GoalCandidate(domain, f), Step3Candidate(domain, f),
                    Step4Candidate(domain, f), CompanyCandidate(f), ShopUrlCandidate(f), MessageCandidate(f),
                    (s: Section) => !s.highlight, i);
    }
  }

  /** Only the shop address is shown as a link. */
  lemma OnlyShopUrlIsLink(domain: string, f: ContactForm, i: nat)
    requires i < |Sections(domain, f)|
    ensures Sections(domain, f)[i].isLink <==> Truthy(f.shopUrl) && Sections(domain, f)[i] == ShopUrlSection(f.shopUrl.value)
  {
    var p := (s: Section) => s.isLink <==> Truthy(f.shopUrl) && s == ShopUrlSection(f.shopUrl.value);
    assert HoldsFor(ChannelCandidate(domain, f), p);
    assert HoldsFor(Step3Candidate(domain, f), p) && HoldsFor(Step4Candidate(domain, f), p);
    AssembleAll(ChannelCandidate(domain, f), GoalCandidate(domain, f), Step3Candidate(domain, f),
                Step4Candidate(domain, f), CompanyCandidate(f), ShopUrlCandidate(f), MessageCandidate(f), p);
  }

  /** A section shows a value under a title that starts with a visible
      character. */
  predicate Shown(s: Section) {
    s.value != "" && s.title != [] && !IsWhitespace(s.title[0])
  }

  /** Every section is shown: a label is never empty, a key is used only
      when it is truthy, and every title starts with a letter. */
  lemma SectionsShown(domain: string, f: ContactForm)
    ensures All(Sections(domain, f), Shown)
  {
    StepsShown(domain, f);
    AssembleAll(ChannelCandidate(domain, f), GoalCandidate(domain, f), Step3Candidate(domain, f),
                Step4Candidate(domain, f), CompanyCandidate(f), ShopUrlCandidate(f), MessageCandidate(f), Shown);
  }

  /** The four steps' sections are shown whenever they are present. */
  lemma StepsShown(domain: string, f: ContactForm)
    ensures HoldsFor(ChannelCandidate(domain, f), Shown) && HoldsFor(GoalCandidate(domain, f), Shown)
    ensures HoldsFor(Step3Candidate(domain, f), Shown) && HoldsFor(Step4Candidate(domain, f), Shown)
  {
    if Truthy(f.step1) { ChannelShown(domain, f.step1.value); }
    if Truthy(f.step2) { GoalShown(domain, f.step2.value); }
    if Truthy(f.step3) { Step3Shown(domain, f.step3.value); }
    if Truthy(f.step4) { Step4Shown(domain, f.step4.value); }
  }

  lemma ChannelShown(domain: string, key: string)
    requires key != ""
    ensures Shown(ChannelSection(domain, key))
  {
  }

  lemma GoalShown(domain: string, key: string)
    requires key != ""
    ensures Shown(GoalSection(domain, key))
  {
  }

  lemma Step3Shown(domain: string, key: string)
    requires key != ""
    ensures Shown(Step3Section(domain, key))
  {
  }

  lemma Step4Shown(domain: string, key: string)
    requires key != ""
    ensures Shown(Step4Section(domain, key))
  {
  }

  // ------------------------------------------------------- per-site labels

  /** A domain without its own configuration gets the Werner Strauch
      addresses but none of its labels: the first step is "Marketing-Kanal"
      and every step shows its raw key. An empty domain is such a domain. */
  lemma UnknownDomainShowsKeys(domain: string, key: string)
    requires KnownDomain(domain) == None
    ensures ConfigOf(domain) == WernerStrauch
    ensures ChannelSection(domain, key) == Section("Marketing-Kanal", key, true, false)
    ensures GoalSection(domain, key) == Section("Hauptziel", key, false, false)
    ensures Step3Section(domain, key) == Section("Monatliches Werbebudget", key, false, false)
    ensures Step4Section(domain, key) == Section("Shopsystem", key, false, false)
  {
  }

  /** The Werner Strauch site shows the interest table's label for the first
      step and the raw keys for the others, which it has no tables for. */
  lemma WernerStrauchLabels(key: string)
    ensures ChannelSection("wernerstrauch", key) == Section("Interesse an", LabelOr(InterestLabels, key), true, false)
    ensures GoalSection("wernerstrauch", key).value == key
    ensures Step3Section("wernerstrauch", key).value == key
    ensures Step4Section("wernerstrauch", key).value == key
  {
  }

  /** The KI site asks for an area, a team size and a time frame. */
  lemma KiAgenturLabels(key: string)
    ensures ChannelSection("ki-agentur", key) == Section("KI-Bereich", LabelOr(KiChannelLabels, key), true, false)
    ensures GoalSection("ki-agentur", key).value == LabelOr(KiGoalLabels, key)
    ensures Step3Section("ki-agentur", key) == Section("Teamgröße", LabelOr(TeamSizeLabels, key), false, false)
    ensures Step4Section("ki-agentur", key) == Section("Zeithorizont", LabelOr(TimelineLabels, key), false, false)
  {
  }

  /** The shop marketing site asks for a channel, a budget and a shop
      system. */
  lemma ShopMarketingLabels(key: string)
    ensures ChannelSection("shop-marketing", key) == Section("Marketing-Kanal", LabelOr(ShopChannelLabels, key), true, false)
    ensures GoalSection("shop-marketing", key).value == LabelOr(ShopGoalLabels, key)
    ensures Step3Section("shop-marketing", key) == Section("Monatliches Werbebudget", LabelOr(BudgetLabels, key), false, false)
    ensures Step4Section("shop-marketing", key) == Section("Shopsystem", LabelOr(PlatformLabels, key), false, false)
  {
  }

  // --------------------------------------------------------------- subject

  /** A value placed in a template string: the text `undefined` when the
      field is missing. */
  function Render(field: Option<string>): string {
    if field.Some? then field.value else "undefined"
  }

  /** `labels.interest?.[channel] || channel || "Kontakt"` on the Werner
      Strauch site, and the same with the channel table elsewhere. A missing
      channel is looked up under the key `undefined`. */
  function Topic(domain: string, channel: Option<string>): string {
    var table := Labels(ConfigOf(domain), if IsWs(domain) then Interest else Channel);
    var key := Render(channel);
    if key in table && table[key] != "" then table[key]
    else if Truthy(channel) then channel.value
    else "Kontakt"
  }

  function Subject(domain: string, f: ContactForm): string {
    "Neue Anfrage: " + Render(f.firstName) + " " + Render(f.lastName) + " - " + Topic(domain, f.step1)
  }

  /** The subject names what the first section shows, or "Kontakt" when the
      first step is missing or empty. */
  lemma TopicIsChannelValue(domain: string, channel: Option<string>)
    ensures Truthy(channel) ==> Topic(domain, channel) == ChannelSection(domain, channel.value).value
    ensures !Truthy(channel) ==> Topic(domain, channel) == "Kontakt"
  {
    FirstStepTablesUndeclared();
  }

  // ------------------------------------------------------------ plain text

  /** `${s.label}: ${s.value}`. */
  function Line(s: Section): string {
    s.title + ": " + s.value
  }

  function Lines(sections: seq<Section>): (r: seq<string>)
    ensures |r| == |sections|
    ensures forall i :: 0 <= i < |sections| ==> r[i] == Line(sections[i])
  {
    seq(|sections|, i requires 0 <= i < |sections| => Line(sections[i]))
  }

  /** `${phone || ""}`. */
  function OrEmpty(field: Option<string>): string {
    if Truthy(field) then field.value else ""
  }

  /** The text before the sections: the site's name and the sender's
      contact details. */
  function Heading(d: DomainId, f: ContactForm): string {
    "\nNEUE ANFRAGE - " + Name(d) + "\n\nKontaktdaten\n" + Render(f.firstName) + " " + Render(f.lastName) + "\n"
    + Render(f.email) + "\n" + OrEmpty(f.phone) + "\n\n"
  }

  /** The plain-text body: the heading and one line per section, trimmed. */
  function TextContent(d: DomainId, f: ContactForm, sections: seq<Section>): string {
    Trim(Heading(d, f) + Join(Lines(sections), "\n") + "\n    ")
  }

  /** A string whose last character is not white space, so trimming the text
      cannot cut into it. */
  predicate EndsVisible(s: string) {
    s != [] && !IsWhitespace(s[|s| - 1])
  }

  /** Every section's line is in the text, unless its value ends in white
      space that trimming may remove. */
  lemma TextHasLine(d: DomainId, f: ContactForm, sections: seq<Section>, i: nat)
    requires i < |sections| && sections[i].title != [] && !IsWhitespace(sections[i].title[0])
    requires EndsVisible(sections[i].value)
    ensures Contains(TextContent(d, f, sections), Line(sections[i]))
  {
    var t := Line(sections[i]);
    JoinContainsPart(Lines(sections), "\n", i);
    assert t[0] == sections[i].title[0];
    assert t[|t| - 1] == sections[i].value[|sections[i].value| - 1];
    TrimKeepsContained(Heading(d, f), Join(Lines(sections), "\n"), "\n    ", t);
  }

  /** Consecutive sections are consecutive lines of the text: the text lists
      the sections in their order. */
  lemma TextKeepsOrder(d: DomainId, f: ContactForm, sections: seq<Section>, i: nat)
    requires i + 1 < |sections| && sections[i].title != [] && !IsWhitespace(sections[i].title[0])
    requires EndsVisible(sections[i + 1].value)
    ensures Contains(TextContent(d, f, sections), Line(sections[i]) + "\n" + Line(sections[i + 1]))
  {
    var t := Line(sections[i]) + "\n" + Line(sections[i + 1]);
    JoinContainsAdjacent(Lines(sections), "\n", i);
    assert t[0] == sections[i].title[0];
    assert t[|t| - 1] == sections[i + 1].value[|sections[i + 1].value| - 1];
    TrimKeepsContained(Heading(d, f), Join(Lines(sections), "\n"), "\n    ", t);
  }

  /** For the form's own sections: each section whose value does not end in
      white space is followed in the text by the next one. */
  lemma FormTextKeepsOrder(domain: string, f: ContactForm, i: nat)
    requires i + 1 < |Sections(domain, f)| && EndsVisible(Sections(domain, f)[i + 1].value)
    ensures Contains(TextContent(ConfigOf(domain), f, Sections(domain, f)),
                     Line(Sections(domain, f)[i]) + "\n" + Line(Sections(domain, f)[i + 1]))
  {
    SectionsShown(domain, f);
    TextKeepsOrder(ConfigOf(domain), f, Sections(domain, f), i);
  }

  // --------------------------------------------------------------- the mail

  /** How a section is marked up in the HTML mail: the highlighted value in a
      coloured badge, a link to the value, or the plain value. */
  datatype SectionMarkup = Badge(text: string, color: string) | Anchor(href: string, text: string, color: string) | Plain(text: string)

  function Markup(s: Section, color: string): SectionMarkup {
    if s.highlight then Badge(s.value, color)
    else if s.isLink then Anchor(s.value, s.value, color)
    else Plain(s.value)
  }

  /** In the mail, the first step's section is the only badge and the shop
      address the only link, pointing at the address itself. */
  lemma MarkupOfSections(domain: string, f: ContactForm, i: nat, color: string)
    requires i < |Sections(domain, f)|
    ensures Markup(Sections(domain, f)[i], color).Badge? <==> i == 0 && Truthy(f.step1)
    ensures Markup(Sections(domain, f)[i], color).Anchor? <==> Sections(domain, f)[i] == ShopUrlSection(f.shopUrl.GetOr("")) && Truthy(f.shopUrl)
    ensures Markup(Sections(domain, f)[i], color).Anchor? ==> Markup(Sections(domain, f)[i], color).href == f.shopUrl.value
  {
    OnlyChannelHighlighted(domain, f, i);
    OnlyShopUrlIsLink(domain, f, i);
  }

  /** The message handed to the mail provider. */
  datatype Email = Email(
    from: string,
    to: seq<string>,
    bcc: seq<string>,
    subject: string,
    sections: seq<SectionMarkup>,
    text: string,
    replyTo: Option<string>)

  function EmailFor(domain: string, f: ContactForm, sections: seq<Section>): (r: Email)
    ensures |r.sections| == |sections|
  {
    var d := ConfigOf(domain);
    Email(FromEmail(d), [ToEmail(d)], [BccEmail(d)], Subject(domain, f),
          seq(|sections|, i requires 0 <= i < |sections| => Markup(sections[i], PrimaryColor(d))),
          TextContent(d, f, sections), f.email)
  }

  /** A domain without its own configuration is mailed to the Werner Strauch
      inbox. */
  lemma UnknownDomainMailsWernerStrauch(domain: string, f: ContactForm, sections: seq<Section>)
    requires KnownDomain(domain) == None
    ensures EmailFor(domain, f, sections).to == ["kontakt@wernerstrauch.de"]
    ensures EmailFor(domain, f, sections).from == "Werner Strauch <kontakt@wernerstrauch.de>"
  {
  }

  // -------------------------------------------------------------- response

  /** What the mail provider's `send` does: it delivers, it reports an error
      with a message, or it throws. */
  datatype SendOutcome = Delivered | Rejected(message: string) | Thrown

  /** The JSON response: its status, `success`, and `error` when there is
      one. */
  datatype Response = Response(status: nat, success: bool, error: Option<string>)

  const ServerError: Response := Response(500, false, Some("Internal server error"))

  /** 200 when the mail went out; 500 with the provider's message when it
      reported an error; 500 "Internal server error" when it threw. */
  function ResponseFor(o: SendOutcome): (r: Response)
    ensures r.status == 200 <==> o.Delivered?
    ensures r.status == 200 || r.status == 500
    ensures r.success <==> r.status == 200
    ensures r.success <==> r.error.None?
    ensures o.Rejected? ==> r.error == Some(o.message)
    ensures o.Thrown? ==> r == ServerError
  {
    match o
    case Delivered => Response(200, true, None)
    case Rejected(message) => Response(500, false, Some(message))
    case Thrown => ServerError
  }

  /** `POST`: a body that does not parse as JSON is a 500 without a mail;
      otherwise the mail built from the form is handed to the provider once
      and its outcome decides the response. */
  method Post(body: Option<ContactForm>, send: Email -> SendOutcome) returns (resp: Response, sent: Option<Email>)
    ensures body.None? ==> resp == ServerError && sent.None?
    ensures body.Some? ==>
              var domain := ResolveDomain(body.value.domain);
              sent == Some(EmailFor(domain, body.value, Sections(domain, body.value)))
    ensures sent.Some? ==> resp == ResponseFor(send(sent.value))
  {
    if body.None? {
      return ServerError, None;
    }
    var f := body.value;
    var domain := ResolveDomain(f.domain);
    var sections := BuildSections(domain, f);
    var email := EmailFor(domain, f, sections);
    sent := Some(email);
    resp := ResponseFor(send(email));
  }
}
