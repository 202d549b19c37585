/**
 * The style resolver of the certificate generator: getCertificateDesign maps the
 * selected certificate type to a style record. Tailwind class names and the icon
 * glyphs are opaque strings; the class names are spelled through the builders
 * below, each of which yields exactly the class string of the table it models
 * (Border("blue") is "border-blue-600").
 */
module StyleResolver {

  /** The record returned by getCertificateDesign. */
  datatype Design = Design(
    title: string,
    backgroundColor: string,
    borderColor: string,
    textColor: string,
    icon: string,
    ribbonColor: string)

  /** The six labels that have a case of their own in the switch. */
  const CasedLabels: seq<string> :=
    ["Course Completion", "Participation", "Excellence", "Leadership", "Innovation", "Teamwork"]

  /** The selectable options of the type drop-down that have no case of their own. */
  const UnmappedOptions: seq<string> :=
    ["Creativity", "Mentorship", "Volunteerism", "Outstanding Performance"]

  function Title(subject: string): string { "Certificate of " + subject }
  function Gradient(family: string): string {
    "bg-gradient-to-r from-" + family + "-50 to-" + family + "-100"
  }
  function Border(family: string): string { "border-" + family + "-600" }
  function TextShade(family: string): string { "text-" + family + "-800" }
  function Ribbon(family: string): string { "bg-" + family + "-600" }

  /** The default profile, used for every label without a case of its own. */
  const AchievementDesign: Design := Design(
    "Certificate of Achievement",
    Gradient("gray"), Border("gray"), TextShade("gray"), "\U{1F396}\U{FE0F}", Ribbon("gray"))

  /**
   * The style for a certificate type. Total: there is no error path, every string
   * (the empty one included) gets a profile; the six cased labels get a title
   * naming the label, everything else the Achievement profile.
   */
  function GetCertificateDesign(certificateType: string): (d: Design)
    ensures if certificateType in CasedLabels then d.title == "Certificate of " + certificateType
            else d == AchievementDesign
  {
    match certificateType
    case "Course Completion" =>
      Design(Title("Course Completion"), Gradient("blue"), Border("blue"),
             TextShade("blue"), "\U{1F4DA}", Ribbon("blue"))
    case "Participation" =>
      Design(Title("Participation"), Gradient("green"), Border("green"),
             TextShade("green"), "\U{1F389}", Ribbon("green"))
    case "Excellence" =>
      Design(Title("Excellence"), Gradient("yellow"), Border("yellow"),
             TextShade("yellow"), "\U{1F3C6}", Ribbon("yellow"))
    case "Leadership" =>
      Design(Title("Leadership"), Gradient("purple"), Border("purple"),
             TextShade("purple"), "\U{1F31F}", Ribbon("purple"))
    case "Innovation" =>
      Design(Title("Innovation"), Gradient("pink"), Border("pink"),
             TextShade("pink"), "\U{1F4A1}", Ribbon("pink"))
    case "Teamwork" =>
      Design(Title("Teamwork"), Gradient("indigo"), Border("indigo"),
             TextShade("indigo"), "\U{1F91D}", Ribbon("indigo"))
    case _ => AchievementDesign
  }

  /**
   * The four colour classes of a profile are shades of one colour family: 50 to 100
   * for the background gradient, 600 for border and ribbon, 800 for the text.
   */
  ghost predicate UsesFamily(d: Design, family: string) {
    && d.backgroundColor == Gradient(family)
    && d.borderColor == Border(family)
    && d.textColor == TextShade(family)
    && d.ribbonColor == Ribbon(family)
  }

  /** Every profile, the default included, uses a single colour family. */
  lemma SingleColourFamily(certificateType: string)
    ensures exists family :: UsesFamily(GetCertificateDesign(certificateType), family)
  {
    var d := GetCertificateDesign(certificateType);
    match certificateType
    case "Course Completion" => assert UsesFamily(d, "blue");
    case "Participation" => assert UsesFamily(d, "green");
    case "Excellence" => assert UsesFamily(d, "yellow");
    case "Leadership" => assert UsesFamily(d, "purple");
    case "Innovation" => assert UsesFamily(d, "pink");
    case "Teamwork" => assert UsesFamily(d, "indigo");
    case _ => assert UsesFamily(d, "gray");
  }

  /** A profile names its colour family unambiguously. */
  lemma FamilyIsUnique(d: Design, f1: string, f2: string)
    requires UsesFamily(d, f1) && UsesFamily(d, f2)
    ensures f1 == f2
  {
    var b := d.borderColor;
    assert |f1| == |f2|;
    assert f1 == b[7..7 + |f1|];
    assert f2 == b[7..7 + |f2|];
  }

  /** The labels whose profiles are compared below: the six cased ones and the empty selection. */
  ghost predicate Profiled(certificateType: string) {
    certificateType in CasedLabels || certificateType == ""
  }

  /** Which profiled label a colour family belongs to (gray is the default's). */
  ghost function LabelOfFamily(family: string): string {
    match family
    case "blue" => "Course Completion"
    case "green" => "Participation"
    case "yellow" => "Excellence"
    case "purple" => "Leadership"
    case "pink" => "Innovation"
    case "indigo" => "Teamwork"
    case _ => ""
  }

  /** Which profiled label an icon belongs to (the medal is the default's). */
  ghost function LabelOfIcon(icon: string): string {
    match icon
    case "\U{1F4DA}" => "Course Completion"
    case "\U{1F389}" => "Participation"
    case "\U{1F3C6}" => "Excellence"
    case "\U{1F31F}" => "Leadership"
    case "\U{1F4A1}" => "Innovation"
    case "\U{1F91D}" => "Teamwork"
    case _ => ""
  }

  /** A profiled label can be told from its profile's colour family and from its icon alone. */
  lemma ProfileIdentifiesLabel(certificateType: string, family: string)
    requires Profiled(certificateType)
    requires UsesFamily(GetCertificateDesign(certificateType), family)
    ensures LabelOfFamily(family) == certificateType
    ensures LabelOfIcon(GetCertificateDesign(certificateType).icon) == certificateType
  {
    var d := GetCertificateDesign(certificateType);
    match certificateType
    case "Course Completion" => FamilyIsUnique(d, family, "blue");
    case "Participation" => FamilyIsUnique(d, family, "green");
    case "Excellence" => FamilyIsUnique(d, family, "yellow");
    case "Leadership" => FamilyIsUnique(d, family, "purple");
    case "Innovation" => FamilyIsUnique(d, family, "pink");
    case "Teamwork" => FamilyIsUnique(d, family, "indigo");
    case _ => FamilyIsUnique(d, family, "gray");
  }

  /**
   * Each cased label, and the default, has a palette and an icon of its own: two
   * different profiled labels never share a colour family or an icon.
   */
  lemma DistinctProfiles(t1: string, t2: string, f1: string, f2: string)
    requires Profiled(t1) && Profiled(t2) && t1 != t2
    requires UsesFamily(GetCertificateDesign(t1), f1)
    requires UsesFamily(GetCertificateDesign(t2), f2)
    ensures f1 != f2
    ensures GetCertificateDesign(t1).icon != GetCertificateDesign(t2).icon
  {
    ProfileIdentifiesLabel(t1, f1);
    ProfileIdentifiesLabel(t2, f2);
  }

  /** The Excellence profile: its title, the yellow palette and the trophy. */
  lemma ExcellenceProfile()
    ensures GetCertificateDesign("Excellence").title == "Certificate of Excellence"
    ensures UsesFamily(GetCertificateDesign("Excellence"), "yellow")
    ensures GetCertificateDesign("Excellence").icon == "\U{1F3C6}"
  {
  }

  /** The empty selection and the four options without a case get the gray default. */
  lemma UnmappedOptionsFallBack(certificateType: string)
    requires certificateType in UnmappedOptions || certificateType == ""
    ensures GetCertificateDesign(certificateType) == AchievementDesign
    ensures UsesFamily(GetCertificateDesign(certificateType), "gray")
  {
  }
}
