/**
 * The content of the rendered certificate in document order: the JSX of the
 * certificate box read as a sequence of lines, ending with the icon badge. Styling,
 * the ribbons and the badge's corner position are not part of it.
 */
module CertificateLayout {
  import opened Wrappers
  import opened StyleResolver
  import opened CertificateForm

  /**
   * One line of text, the signature and the issue date side by side under their
   * rules, or the profile's icon in its corner badge.
   */
  datatype Line =
    | Text(text: string)
    | SignatureRow(signature: string, issueDate: string)
    | Badge(icon: string)

  const CertifiesLine := "This certifies that"
  const DemonstratedLine := "has successfully demonstrated"
  const DatePrefix := "on this day, "
  const IssuerPrefix := "Issued by: "

  /** The certificate's content for the given form and the style resolved from its type. */
  function RenderedText(f: FormData, d: Design): (lines: seq<Line>)
    ensures |lines| == 9
    ensures forall i :: 0 <= i < |lines| ==> (lines[i].SignatureRow? <==> i == |lines| - 2)
    ensures forall i :: 0 <= i < |lines| ==> (lines[i].Badge? <==> i == |lines| - 1)
  {
    [ Text(d.title),
      Text(CertifiesLine),
      Text(f.name),
      Text(DemonstratedLine),
      Text(f.certificateType),
      Text(DatePrefix + f.completionDate),
      Text(IssuerPrefix + f.issuer),
      SignatureRow(f.signature, f.issueDate),
      Badge(d.icon) ]
  }

  /** What a reader of the certificate sees: every displayed value, and nothing else. */
  datatype Displayed = Displayed(
    title: string,
    name: string,
    certificateType: string,
    completionDate: string,
    issuer: string,
    signature: string,
    issueDate: string,
    icon: string)

  /** The values shown by a form and a style. */
  function Shown(f: FormData, d: Design): Displayed {
    Displayed(d.title, f.name, f.certificateType, f.completionDate, f.issuer, f.signature, f.issueDate,
              d.icon)
  }

  /** The text after a fixed prefix, if the line starts with it. */
  function After(prefix: string, s: string): (r: Option<string>)
    ensures r.Some? <==> (|prefix| <= |s| && s[..|prefix|] == prefix)
    ensures r.Some? ==> s == prefix + r.value
  {
    if |prefix| <= |s| && s[..|prefix|] == prefix then
      assert s == s[..|prefix|] + s[|prefix|..];
      Some(s[|prefix|..])
    else None
  }

  /** Reads the displayed values back from the content of a certificate. */
  function ReadBack(lines: seq<Line>): Option<Displayed> {
    if |lines| != 9 then None
    else if !(lines[0].Text? && lines[2].Text? && lines[4].Text?) then None
    else if lines[1] != Text(CertifiesLine) || lines[3] != Text(DemonstratedLine) then None
    else if !(lines[5].Text? && lines[6].Text? && lines[7].SignatureRow? && lines[8].Badge?) then None
    else
      match (After(DatePrefix, lines[5].text), After(IssuerPrefix, lines[6].text))
      case (Some(date), Some(issuer)) =>
        Some(Displayed(lines[0].text, lines[2].text, lines[4].text, date, issuer,
                       lines[7].signature, lines[7].issueDate, lines[8].icon))
      case _ => None
  }

  /** The layout loses nothing it displays: the content reads back to the displayed values. */
  lemma ReadBackRendered(f: FormData, d: Design)
    ensures ReadBack(RenderedText(f, d)) == Some(Shown(f, d))
  {
  }

  /** ReadBack accepts the text of a rendered certificate and nothing else. */
  lemma ReadBackOnlyRendered(lines: seq<Line>)
    requires ReadBack(lines).Some?
    ensures exists f, d :: RenderedText(f, d) == lines && Shown(f, d) == ReadBack(lines).value
  {
    var x := ReadBack(lines).value;
    var f := FormData(x.name, "", x.completionDate, x.issuer, x.signature, x.issueDate,
                      x.certificateType);
    var d := Design(x.title, "", "", "", x.icon, "");
    assert RenderedText(f, d) == lines;
  }

  /** Two certificates with the same content display the same values. */
  lemma RenderedTextDeterminesShown(f1: FormData, d1: Design, f2: FormData, d2: Design)
    requires RenderedText(f1, d1) == RenderedText(f2, d2)
    ensures Shown(f1, d1) == Shown(f2, d2)
  {
    ReadBackRendered(f1, d1);
    ReadBackRendered(f2, d2);
  }

  /** The e-mail address is collected but never displayed. */
  lemma EmailNotRendered(f: FormData, d: Design, email: string)
    ensures RenderedText(f.(email := email), d) == RenderedText(f, d)
  {
  }
}
