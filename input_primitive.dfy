/**
 * The `Input` primitive: the id it derives from its label, and which of
 * label, error and hint it renders and points `aria-describedby` at.
 */
module InputPrimitive {
  import opened Wrappers
  import opened TextRuns

  /** The props the model reads; `caption` is the `label` prop (a reserved word here). */
  datatype InputProps = InputProps(id: Option<string>, caption: Option<string>, error: Option<string>, hint: Option<string>)

  /** A `<label htmlFor=...>` element. */
  datatype LabelView = LabelView(htmlFor: Option<string>, text: string)

  /** A `<p id=...>` below the input. */
  datatype Paragraph = Paragraph(id: string, text: string)

  datatype InputView = InputView(
    labelElement: Option<LabelView>,
    inputId: Option<string>,
    borderClasses: seq<string>,
    ariaInvalid: Option<string>,
    ariaDescribedBy: Option<string>,
    errorParagraph: Option<Paragraph>,
    hintParagraph: Option<Paragraph>)

  const ErrorBorder: seq<string> := ["border-feedback-error", "focus:outline-feedback-error"]
  const DefaultBorder: seq<string> := ["border-border-default", "hover:border-border-strong"]

  /**
   * `label.toLowerCase().replace(/\s+/g, "-")`: the id has no whitespace and no
   * upper-case letter, and keeps the label's characters other than whitespace and
   * hyphens in order (see `IdFromLabelJoin` for where the hyphens go).
   */
  function IdFromLabel(caption: string): (r: string)
    ensures forall i :: 0 <= i < |r| ==> !IsWhitespace(r[i]) && !IsUpper(r[i])
    ensures Kept(r, IsWhitespace) == Kept(Lower(caption), IsWhitespace)
  {
    var low := Lower(caption);
    ReplaceRunsLeavesNoClassChar(low, IsWhitespace);
    ReplaceRunsDrawsFrom(low, IsWhitespace);
    ReplaceRunsKeepsOthers(low, IsWhitespace);
    assert forall c :: c in low ==> !IsUpper(c);
    ReplaceRuns(low, IsWhitespace)
  }

  /**
   * Each maximal run of whitespace in a label becomes exactly one hyphen in its
   * place, and the text on either side is turned into an id on its own.
   */
  lemma IdFromLabelJoin(x: string, gap: string, y: string)
    requires |gap| > 0 && forall i :: 0 <= i < |gap| ==> IsWhitespace(gap[i])
    requires x == [] || !IsWhitespace(x[|x| - 1])
    requires y == [] || !IsWhitespace(y[0])
    ensures IdFromLabel(x + gap + y) == IdFromLabel(x) + "-" + IdFromLabel(y)
  {
    LowerAppend(x + gap, y);
    LowerAppend(x, gap);
    var lx, lg, ly := Lower(x), Lower(gap), Lower(y);
    assert forall i :: 0 <= i < |lg| ==> IsWhitespace(lg[i]);
    if x != [] {
      LowerCharWhitespace(x[|x| - 1]);
    }
    if y != [] {
      LowerCharWhitespace(y[0]);
    }
    ReplaceRunsSplit(lx, lg, ly, IsWhitespace);
  }

  /** A label with no whitespace and no upper-case letter is its own id. */
  lemma IdFromPlainLabel(caption: string)
    requires forall i :: 0 <= i < |caption| ==> !IsWhitespace(caption[i]) && !IsUpper(caption[i])
    ensures IdFromLabel(caption) == caption
  {
    assert Lower(caption) == caption;
    ReplaceRunsIdentity(caption, IsWhitespace);
  }

  /** `id ?? label?.toLowerCase().replace(/\s+/g, "-")`. */
  function InputId(id: Option<string>, caption: Option<string>): (r: Option<string>)
    ensures id.Some? ==> r == id
    ensures id.None? ==> (r.Some? <==> caption.Some?)
    ensures id.None? && caption.Some? ==> r.value == IdFromLabel(caption.value)
  {
    match id
    case Some(_) => id
    case None =>
      match caption
      case Some(l) => Some(IdFromLabel(l))
      case None => None
  }

  function Render(props: InputProps): (v: InputView)
    ensures v.inputId == InputId(props.id, props.caption)
    ensures v.labelElement.Some? <==> Truthy(props.caption)
    ensures v.labelElement.Some? ==> v.labelElement.value.htmlFor == v.inputId && v.labelElement.value.text == props.caption.value
    ensures v.borderClasses == (if Truthy(props.error) then ErrorBorder else DefaultBorder)
    ensures v.ariaInvalid.Some? <==> Truthy(props.error)
    ensures v.ariaInvalid.Some? ==> v.ariaInvalid.value == "true"
    ensures Truthy(props.error) ==> v.ariaDescribedBy == Some(Interpolate(v.inputId) + "-error")
    ensures !Truthy(props.error) && Truthy(props.hint) ==> v.ariaDescribedBy == Some(Interpolate(v.inputId) + "-hint")
    ensures !Truthy(props.error) && !Truthy(props.hint) ==> v.ariaDescribedBy.None?
    ensures v.errorParagraph.Some? <==> Truthy(props.error)
    ensures v.hintParagraph.Some? <==> !Truthy(props.error) && Truthy(props.hint)
    ensures v.errorParagraph.Some? ==> v.errorParagraph.value.text == props.error.value
    ensures v.hintParagraph.Some? ==> v.hintParagraph.value.text == props.hint.value
  {
    var inputId := InputId(props.id, props.caption);
    var hasError := Truthy(props.error);
    var hasHint := Truthy(props.hint);
    InputView(
      if Truthy(props.caption) then Some(LabelView(inputId, props.caption.value)) else None,
      inputId,
      if hasError then ErrorBorder else DefaultBorder,
      if hasError then Some("true") else None,
      if hasError then Some(Interpolate(inputId) + "-error")
      else if hasHint then Some(Interpolate(inputId) + "-hint")
      else None,
      if hasError then Some(Paragraph(Interpolate(inputId) + "-error", props.error.value)) else None,
      if !hasError && hasHint then Some(Paragraph(Interpolate(inputId) + "-hint", props.hint.value)) else None)
  }

  /**
   * The error and the hint are never shown together, and `aria-describedby`,
   * when set, names the one paragraph that is shown.
   */
  lemma DescribedByNamesShownParagraph(props: InputProps)
    ensures !(Render(props).errorParagraph.Some? && Render(props).hintParagraph.Some?)
    ensures Render(props).ariaDescribedBy.Some? <==>
              Render(props).errorParagraph.Some? || Render(props).hintParagraph.Some?
    ensures Render(props).errorParagraph.Some? ==>
              Render(props).ariaDescribedBy == Some(Render(props).errorParagraph.value.id)
    ensures Render(props).hintParagraph.Some? ==>
              Render(props).ariaDescribedBy == Some(Render(props).hintParagraph.value.id)
  {
  }

  /** An explicit id, even the empty one, is used as it is and the label does not matter. */
  lemma ExplicitIdWins(id: string, caption1: Option<string>, caption2: Option<string>)
    ensures InputId(Some(id), caption1) == InputId(Some(id), caption2) == Some(id)
  {
  }
}
