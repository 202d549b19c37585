/**
 * The certificate generator component: its state (the form record and the
 * showCertificate flag), the three event handlers, and what the component shows.
 * The handlers are specified by pure transition functions on a Screen value, and
 * the class CertificateGenerator implements them by updating its two fields.
 */
module Generator {
  import opened Wrappers
  import opened StyleResolver
  import opened CertificateForm
  import opened CertificateLayout

  /** The component's state. */
  datatype Screen = Screen(formData: FormData, showCertificate: bool)

  /** The state at mount time. */
  const InitialScreen: Screen := Screen(EmptyForm, false)

  /**
   * A user action: editing one input, clicking Generate, or clicking Download while
   * the certificate box measures offsetWidth by offsetHeight pixels. The page shows
   * the Download button only while the certificate is shown; a DownloadClick is
   * allowed in any state, so the handler's not-found branch is modelled too.
   */
  datatype Event =
    | Change(field: Field, value: string)
    | GenerateClick
    | DownloadClick(offsetWidth: nat, offsetHeight: nat)

  /**
   * What a handler does besides changing state: nothing, a blocking alert, or a
   * PNG export of the given pixel size saved under the given file name.
   */
  datatype Effect =
    | Silent
    | Alert(message: string)
    | ExportPng(width: nat, height: nat, fileName: string)

  datatype Transition = Transition(next: Screen, effect: Effect)

  const FillAllFieldsMessage := "Please fill out all fields."
  const ElementNotFoundMessage := "Certificate element not found."
  const DownloadFileName := "certificate.png"

  /** handleChange: one field replaced, the flag untouched, no alert. */
  function Edit(s: Screen, k: Field, v: string): (t: Transition)
    ensures Get(t.next.formData, k) == v
    ensures forall j :: j != k ==> Get(t.next.formData, j) == Get(s.formData, j)
    ensures t.next.showCertificate == s.showCertificate && t.effect == Silent
  {
    Transition(s.(formData := SetField(s.formData, k, v)), Silent)
  }

  /**
   * handleGenerateCertificate: with an empty field, an alert and no change; otherwise
   * the flag is raised. The form is never changed and the flag never lowered.
   */
  function Generate(s: Screen): (t: Transition)
    ensures t.next.formData == s.formData
    ensures t.next.showCertificate == (s.showCertificate || AllFilled(s.formData))
    ensures t.effect == Alert(FillAllFieldsMessage) <==> !AllFilled(s.formData)
    ensures t.effect != Alert(FillAllFieldsMessage) ==> t.effect == Silent
  {
    if !AllFilled(s.formData) then
      Transition(s, Alert(FillAllFieldsMessage))
    else
      Transition(s.(showCertificate := true), Silent)
  }

  /**
   * handleDownloadCertificate: the certificate box exists exactly when
   * showCertificate holds. Without it, an alert and no export; with it, an export
   * at twice the box's size under the name certificate.png. The state never changes.
   */
  function Download(s: Screen, offsetWidth: nat, offsetHeight: nat): (t: Transition)
    ensures t.next == s
    ensures t.effect.ExportPng? <==> s.showCertificate
    ensures !s.showCertificate ==> t.effect == Alert(ElementNotFoundMessage)
    ensures t.effect.ExportPng? ==>
      && t.effect.width == 2 * offsetWidth
      && t.effect.height == 2 * offsetHeight
      && t.effect.fileName == DownloadFileName
  {
    if !s.showCertificate then
      Transition(s, Alert(ElementNotFoundMessage))
    else
      Transition(s, ExportPng(offsetWidth * 2, offsetHeight * 2, DownloadFileName))
  }

  /** The handler that an event invokes. */
  function Step(s: Screen, e: Event): Transition {
    match e
    case Change(k, v) => Edit(s, k, v)
    case GenerateClick => Generate(s)
    case DownloadClick(w, h) => Download(s, w, h)
  }

  /** The state after a sequence of events, the last event handled last. */
  function Run(s: Screen, events: seq<Event>): Screen
    decreases |events|
  {
    if events == [] then s
    else Step(Run(s, events[..|events| - 1]), events[|events| - 1]).next
  }

  /** Handling one more event after a sequence. */
  lemma RunSnoc(s: Screen, events: seq<Event>, e: Event)
    ensures Run(s, events + [e]) == Step(Run(s, events), e).next
  {
  }

  /** Once shown, the certificate stays shown whatever the user does next. */
  lemma {:induction false} ShowCertificateIsMonotone(s: Screen, events: seq<Event>)
    requires s.showCertificate
    ensures Run(s, events).showCertificate
    decreases |events|
  {
    if events != [] {
      ShowCertificateIsMonotone(s, events[..|events| - 1]);
    }
  }

  /**
   * The certificate is shown only after a Generate click at a moment when all seven
   * fields were filled.
   */
  lemma {:induction false} ShownOnlyAfterValidGenerate(s: Screen, events: seq<Event>)
    requires !s.showCertificate
    requires Run(s, events).showCertificate
    ensures exists i :: 0 <= i < |events| && events[i] == GenerateClick
                        && AllFilled(Run(s, events[..i]).formData)
    decreases |events|
  {
    var n := |events| - 1;
    var prefix := events[..n];
    assert events[..n] == prefix;
    if Run(s, prefix).showCertificate {
      ShownOnlyAfterValidGenerate(s, prefix);
      var i :| 0 <= i < |prefix| && prefix[i] == GenerateClick
               && AllFilled(Run(s, prefix[..i]).formData);
      assert prefix[..i] == events[..i];
    } else {
      assert events[n] == GenerateClick;
    }
  }

  /** Generate and Download leave the form as it is: only Change events edit it. */
  lemma {:induction false} OnlyChangesEditTheForm(s: Screen, events: seq<Event>)
    requires forall i :: 0 <= i < |events| ==> !events[i].Change?
    ensures Run(s, events).formData == s.formData
    decreases |events|
  {
    if events != [] {
      OnlyChangesEditTheForm(s, events[..|events| - 1]);
    }
  }

  /** What the component displays: the certificate text, or nothing before generation. */
  function View(s: Screen): (v: Option<seq<Line>>)
    ensures v.Some? <==> s.showCertificate
    ensures v.Some? ==>
      ReadBack(v.value) == Some(Shown(s.formData, GetCertificateDesign(s.formData.certificateType)))
  {
    if s.showCertificate then
      ReadBackRendered(s.formData, GetCertificateDesign(s.formData.certificateType));
      Some(RenderedText(s.formData, GetCertificateDesign(s.formData.certificateType)))
    else None
  }

  /**
   * The generate guard does not stay in force: once a complete form has been
   * generated, choosing "Select Type" again keeps the certificate on screen, now with
   * an empty type line under the Achievement title.
   */
  lemma ClearedTypeStillShown(f: FormData)
    requires AllFilled(f)
    ensures
      var s := Run(Screen(f, false), [GenerateClick, Change(CertificateType, "")]);
      && s.showCertificate
      && s.formData == f.(certificateType := "")
      && View(s) == Some(RenderedText(s.formData, AchievementDesign))
  {
    var s0 := Screen(f, false);
    var cleared := Change(CertificateType, "");
    RunSnoc(s0, [], GenerateClick);
    assert [] + [GenerateClick] == [GenerateClick];
    assert Run(s0, [GenerateClick]) == Screen(f, true);
    RunSnoc(s0, [GenerateClick], cleared);
    assert [GenerateClick] + [cleared] == [GenerateClick, cleared];
    var s2 := Screen(f.(certificateType := ""), true);
    assert Run(s0, [GenerateClick, cleared]) == s2;
    UnmappedOptionsFallBack("");
  }

  /** The component itself: the form record and the flag, updated in place. */
  class CertificateGenerator {
    var formData: FormData
    var showCertificate: bool

    function State(): Screen
      reads this
    {
      Screen(formData, showCertificate)
    }

    constructor ()
      ensures State() == InitialScreen
    {
      formData := EmptyForm;
      showCertificate := false;
    }

    method HandleChange(field: Field, value: string)
      modifies this
      ensures formData == SetField(old(formData), field, value)
      ensures showCertificate == old(showCertificate)
      ensures State() == Edit(old(State()), field, value).next
    {
      formData := SetField(formData, field, value);
    }

    method HandleGenerateCertificate() returns (effect: Effect)
      modifies this
      ensures formData == old(formData)
      ensures showCertificate == (old(showCertificate) || AllFilled(formData))
      ensures effect == (if AllFilled(formData) then Silent else Alert(FillAllFieldsMessage))
      ensures Transition(State(), effect) == Generate(old(State()))
    {
      if !AllFilled(formData) {
        effect := Alert(FillAllFieldsMessage);
        return;
      }
      showCertificate := true;
      effect := Silent;
    }

    method HandleDownloadCertificate(offsetWidth: nat, offsetHeight: nat) returns (effect: Effect)
      ensures effect.ExportPng? <==> showCertificate
      ensures !showCertificate ==> effect == Alert(ElementNotFoundMessage)
      ensures showCertificate ==> effect == ExportPng(2 * offsetWidth, 2 * offsetHeight, DownloadFileName)
      ensures Download(State(), offsetWidth, offsetHeight) == Transition(State(), effect)
    {
      if !showCertificate {
        effect := Alert(ElementNotFoundMessage);
        return;
      }
      effect := ExportPng(offsetWidth * 2, offsetHeight * 2, DownloadFileName);
    }
  }
}
