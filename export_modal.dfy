/**
 * The HTML export (components/export-modal.tsx `generateHTML`): one block per
 * field, chosen by the field's type, the empty blocks dropped, the rest
 * joined by newlines and placed inside a themed document. Text is inserted
 * verbatim, without escaping.
 *
 * Each template literal is written as the sequence of its pieces, literal
 * text and interpolated values alternating; the string it produces is their
 * concatenation. The literal text is gathered in one record, `Html`, and the
 * rendering functions take that record as a parameter, so that every lemma
 * below holds whatever the literal text is, and in particular for `Html`.
 */
module ExportModal {
  import opened Wrappers
  import opened Collections
  import Str = Text
  import opened FormContext

  /** Literal text that is known not to be empty. */
  type NonEmpty = s: string | s != [] witness " "

  /**
   * The literal text of the templates, in order of appearance. Every block
   * starts with the indentation, which is not empty.
   */
  datatype Template = Template(
    indent: NonEmpty, blockOpen: string, blockClose: string,
    labelFor: string, labelStyle: string, labelEnd: string,
    idAttr: string, nameAttr: string,
    controlStyle: string, controlStyleEnd: string,
    submitStart: string, submitStyle: string, submitEnd: string,
    inputStart: string, placeholderAttr: string, inputEnd: string,
    textareaStart: string, textareaEnd: string,
    selectStart: string, selectPlaceholder: string, selectPlaceholderEnd: string, selectEnd: string,
    optionStart: string, optionMid: string, optionEnd: string,
    groupLabel: string, groupStart: string, groupEnd: string,
    choiceStart: string, choiceInput: string, choiceId: string, choiceValue: string,
    choiceLabelFor: string, choiceLabelStyle: string, choiceEnd: string,
    headStart: string, background: string, colorRule: string, containerStart: string,
    headingStart: string, headingColor: string, headEnd: string, documentTail: string)

  const Html: Template := Template(
    "    ", "<div style=\"margin-bottom: 20px;\">\n", "\n    </div>",
    "      <label for=\"", "\" style=\"display: block; margin-bottom: 8px; font-weight: 500;\">", "</label>\n",
    "id=\"", "\" name=\"",
    " style=\"width: 100%; padding: 10px; border: 1px solid ", "; border-radius: 4px; font-family: inherit;",
    "<button type=\"submit\" style=\"background-color: ",
    "; color: white; padding: 10px 20px; border: none; border-radius: 4px; cursor: pointer; font-weight: 600;\">",
    "</button>",
    "      <input type=\"", " placeholder=\"", "\" />",
    "      <textarea ", " resize: vertical; min-height: 120px;\"></textarea>",
    "      <select ", "\">\n        <option value=\"\">", "</option>\n", "\n      </select>",
    "        <option value=\"", "\">", "</option>",
    "      <label style=\"display: block; margin-bottom: 8px; font-weight: 500;\">", "</label>\n      <div>\n",
    "\n      </div>",
    "      <div style=\"margin-bottom: 8px;\">\n        ", "<input type=\"", "\" id=\"", "\" value=\"",
    "\n        <label for=\"", "\" style=\"margin-left: 8px; cursor: pointer;\">", "</label>\n      </div>",
    "<!DOCTYPE html>\n<html lang=\"en\">\n<head>\n  <meta charset=\"UTF-8\">\n"
      + "  <meta name=\"viewport\" content=\"width=device-width, initial-scale=1.0\">\n"
      + "  <title>Contact Form</title>\n  <style>\n    * {\n      margin: 0;\n      padding: 0;\n"
      + "      box-sizing: border-box;\n    }\n    body {\n"
      + "      font-family: -apple-system, BlinkMacSystemFont, 'Segoe UI', 'Roboto', 'Oxygen', 'Ubuntu', 'Cantarell', sans-serif;\n"
      + "      ",
    "background-color: ", "\n      color: ",
    "\n      padding: 20px;\n    }\n    .container {\n      max-width: 600px;\n      margin: 0 auto;\n      ",
    "\n      padding: 40px;\n      border-radius: 8px;\n      box-shadow: 0 2px 8px rgba(0, 0, 0, 0.1);\n    }\n"
      + "    h1 {\n      margin-bottom: 30px;\n      text-align: center;\n      ",
    "color: ",
    "\n    }\n    button:hover {\n      opacity: 0.9;\n    }\n    @media (max-width: 640px) {\n"
      + "      .container {\n        padding: 20px;\n      }\n    }\n  </style>\n</head>\n<body>\n"
      + "  <div class=\"container\">\n    <h1>Contact Form</h1>\n    <form method=\"POST\" action=\"/submit\">\n",
    "\n    </form>\n  </div>\n</body>\n</html>")

  // ---------------------------------------------------------------------------
  // Pieces shared by the blocks

  /** `${field.name}`: an absent name prints as "undefined". */
  function NameText(f: FormField): string {
    match f.name
    case Some(n) => n
    case None => "undefined"
  }

  /** `${field.required ? 'required' : ''}`. */
  function RequiredAttr(f: FormField): string {
    if f.required then "required" else ""
  }

  /** The label line of a text, email, textarea or select block. */
  function LabelHtml(t: Template, f: FormField): string {
    Str.Concat([t.labelFor, NameText(f), t.labelStyle, f.labelText, t.labelEnd])
  }

  /** The id and name attributes, both taken from the field's name. */
  function IdNameHtml(t: Template, f: FormField): string {
    Str.Concat([t.idAttr, NameText(f), t.nameAttr, NameText(f), "\""])
  }

  function PlaceholderHtml(t: Template, f: FormField): string {
    Str.Concat([t.placeholderAttr, f.placeholder, "\" "])
  }

  /** The style attribute: a border in the primary colour. */
  function StyleHtml(t: Template, primary: string): string {
    Str.Concat([t.controlStyle, primary, t.controlStyleEnd])
  }

  /** The types whose block has a `required` slot. */
  predicate IsControl(ft: FieldType) {
    ft == Text || ft == Email || ft == Textarea || ft == Select
  }

  predicate IsChoice(ft: FieldType) {
    ft == Checkbox || ft == Radio
  }

  /** The fields whose type has a rule, i.e. that produce a non-empty block. */
  predicate Rendered(f: FormField) {
    f.fieldType.Known()
  }

  function SelectOption(t: Template, opt: string): string {
    Str.Concat([t.optionStart, opt, t.optionMid, opt, t.optionEnd])
  }

  function SelectLines(t: Template, os: seq<string>): (r: seq<string>)
    ensures |r| == |os| && forall k :: 0 <= k < |os| ==> r[k] == SelectOption(t, os[k])
  {
    seq(|os|, k requires 0 <= k < |os| => SelectOption(t, os[k]))
  }

  /** `field.options?.map(...).join('\n') || ''` for a select. */
  function SelectOptions(t: Template, f: FormField): string {
    match f.options
    case None => ""
    case Some(os) => Str.Join(SelectLines(t, os), "\n")
  }

  /** The input of one checkbox or radio option. */
  function ChoiceInputHtml(t: Template, ty: string, n: string, opt: string): string {
    Str.Concat([t.choiceInput, ty, t.choiceId, n, "-", opt, t.nameAttr, n, t.choiceValue, opt, t.inputEnd])
  }

  /** One checkbox or radio option: its input and its label. */
  function ChoiceLine(t: Template, ty: string, n: string, opt: string): string {
    Str.Concat([t.choiceStart, ChoiceInputHtml(t, ty, n, opt),
                t.choiceLabelFor, n, "-", opt, t.choiceLabelStyle, opt, t.choiceEnd])
  }

  function ChoiceLines(t: Template, f: FormField, os: seq<string>): (r: seq<string>)
    ensures |r| == |os|
    ensures forall k :: 0 <= k < |os| ==> r[k] == ChoiceLine(t, f.fieldType.Tag(), NameText(f), os[k])
  {
    seq(|os|, k requires 0 <= k < |os| => ChoiceLine(t, f.fieldType.Tag(), NameText(f), os[k]))
  }

  /** `field.options?.map(...).join('\n') || ''` for a checkbox or radio group. */
  function ChoiceOptions(t: Template, f: FormField): string {
    match f.options
    case None => ""
    case Some(os) => Str.Join(ChoiceLines(t, f, os), "\n")
  }

  // ---------------------------------------------------------------------------
  // The blocks

  /** A submit field: a bare button, not wrapped in a block. */
  function SubmitBlock(t: Template, f: FormField, primary: string): string {
    Str.Concat([t.indent, t.submitStart, primary, t.submitStyle, f.labelText, t.submitEnd])
  }

  /** The opening tag of a control, up to its `required` slot. */
  function ControlOpening(t: Template, f: FormField): string
    requires IsControl(f.fieldType)
  {
    if f.fieldType == Textarea then
      Str.Concat([t.textareaStart, IdNameHtml(t, f), PlaceholderHtml(t, f)])
    else if f.fieldType == Select then
      Str.Concat([t.selectStart, IdNameHtml(t, f), " "])
    else
      Str.Concat([t.inputStart, f.fieldType.Tag(), "\" ", IdNameHtml(t, f), PlaceholderHtml(t, f)])
  }

  /** The select's placeholder option, its options and its closing tag. */
  function SelectBody(t: Template, f: FormField): string {
    Str.Concat([t.selectPlaceholder, f.placeholder, t.selectPlaceholderEnd, SelectOptions(t, f), t.selectEnd])
  }

  /** The rest of a control after its `required` slot. */
  function ControlClosing(t: Template, f: FormField, primary: string): string
    requires IsControl(f.fieldType)
  {
    if f.fieldType == Textarea then Str.Concat([StyleHtml(t, primary), t.textareaEnd])
    else if f.fieldType == Select then Str.Concat([StyleHtml(t, primary), SelectBody(t, f)])
    else Str.Concat([StyleHtml(t, primary), t.inputEnd])
  }

  /** The pieces of a text, email, textarea or select block; the `required` slot is piece 4. */
  function ControlPieces(t: Template, f: FormField, primary: string): seq<string>
    requires IsControl(f.fieldType)
  {
    [t.indent, t.blockOpen, LabelHtml(t, f), ControlOpening(t, f), RequiredAttr(f), ControlClosing(t, f, primary), t.blockClose]
  }

  /** A block's text before the `required` slot. */
  function ControlBefore(t: Template, f: FormField): string
    requires IsControl(f.fieldType)
  {
    Str.Concat([t.indent, t.blockOpen, LabelHtml(t, f), ControlOpening(t, f)])
  }

  function ChoiceBlock(t: Template, f: FormField): string {
    Str.Concat([t.indent, t.blockOpen, t.groupLabel, f.labelText, t.groupStart, ChoiceOptions(t, f), t.groupEnd, t.blockClose])
  }

  /** The block one field contributes; '' for a type no rule handles. */
  function FieldBlock(t: Template, f: FormField, primary: string): string {
    match f.fieldType
    case Submit => SubmitBlock(t, f, primary)
    case Checkbox | Radio => ChoiceBlock(t, f)
    case OtherType(_) => ""
    case _ => Str.Concat(ControlPieces(t, f, primary))
  }

  /** `form.fields.map(...)`, before the empty blocks are dropped. */
  function RawBlocks(t: Template, fields: seq<FormField>, primary: string): seq<string> {
    Map((f: FormField) => FieldBlock(t, f, primary), fields)
  }

  /** `.filter(Boolean)`. */
  function Blocks(t: Template, fields: seq<FormField>, primary: string): seq<string> {
    Str.DropEmpty(RawBlocks(t, fields, primary))
  }

  // ---------------------------------------------------------------------------
  // The document

  function Background(theme: Theme): string {
    if theme == Dark then "#1a1a1a" else "#f5f5f5"
  }

  function Foreground(theme: Theme): string {
    if theme == Dark then "#ffffff" else "#000000"
  }

  function ContainerBackground(theme: Theme): string {
    if theme == Dark then "#2d2d2d" else "#ffffff"
  }

  function BodyStyle(t: Template, theme: Theme): string {
    Str.Concat([t.background, Background(theme), ";", t.colorRule, Foreground(theme), ";"])
  }

  function ContainerStyle(t: Template, theme: Theme): string {
    Str.Concat([t.background, ContainerBackground(theme), ";"])
  }

  function HeadingStyle(t: Template, primary: string): string {
    Str.Concat([t.headingColor, primary, ";"])
  }

  /** Everything before the field blocks. */
  function Head(t: Template, theme: Theme, primary: string): string {
    Str.Concat([t.headStart, BodyStyle(t, theme), t.containerStart, ContainerStyle(t, theme),
                t.headingStart, HeadingStyle(t, primary), t.headEnd])
  }

  function FieldsText(t: Template, form: FormConfig): string {
    Str.Join(Blocks(t, form.fields, form.primaryColor), "\n")
  }

  function Generate(t: Template, form: FormConfig): string {
    Head(t, form.theme, form.primaryColor) + FieldsText(t, form) + t.documentTail
  }

  /** `generateHTML()`. */
  function GenerateHTML(form: FormConfig): string {
    Generate(Html, form)
  }

  // ---------------------------------------------------------------------------
  // Properties of the export

  /**
   * The output is the document shell with the blocks, in field order and
   * joined by newlines, between its two halves.
   */
  lemma DocumentShape(t: Template, form: FormConfig)
    ensures var r := Generate(t, form);
      var h := Head(t, form.theme, form.primaryColor);
      && Str.StartsWith(r, t.headStart)
      && |h| + |t.documentTail| <= |r|
      && r[..|h|] == h
      && r[|h|..|r| - |t.documentTail|] == Str.Join(Blocks(t, form.fields, form.primaryColor), "\n")
      && r[|r| - |t.documentTail|..] == t.documentTail
  {
    var h := Head(t, form.theme, form.primaryColor);
    var hp := [t.headStart, BodyStyle(t, form.theme), t.containerStart, ContainerStyle(t, form.theme),
               t.headingStart, HeadingStyle(t, form.primaryColor), t.headEnd];
    Str.ConcatSplit(hp, 1);
    assert hp[..1] == [t.headStart];
    Str.ConcatSingle(t.headStart);
  }

  /** The head of the document occurs in it. */
  lemma HeadInDocument(t: Template, form: FormConfig)
    ensures Str.Contains(Generate(t, form), Head(t, form.theme, form.primaryColor))
  {
    Str.ContainsPrefix(Generate(t, form), Head(t, form.theme, form.primaryColor));
  }

  /**
   * The dark theme colours the body #1a1a1a with #ffffff text and the
   * container #2d2d2d; any other theme uses #f5f5f5, #000000 and #ffffff.
   * The heading is in the primary colour.
   */
  lemma ThemeColours(t: Template, form: FormConfig)
    ensures var r := Generate(t, form);
      && (form.theme == Dark ==>
            && Str.Contains(r, Str.Concat([t.background, "#1a1a1a", ";", t.colorRule, "#ffffff", ";"]))
            && Str.Contains(r, Str.Concat([t.background, "#2d2d2d", ";"])))
      && (form.theme != Dark ==>
            && Str.Contains(r, Str.Concat([t.background, "#f5f5f5", ";", t.colorRule, "#000000", ";"]))
            && Str.Contains(r, Str.Concat([t.background, "#ffffff", ";"])))
      && Str.Contains(r, Str.Concat([t.headingColor, form.primaryColor, ";"]))
  {
    var r, h := Generate(t, form), Head(t, form.theme, form.primaryColor);
    var hp := [t.headStart, BodyStyle(t, form.theme), t.containerStart, ContainerStyle(t, form.theme),
               t.headingStart, HeadingStyle(t, form.primaryColor), t.headEnd];
    HeadInDocument(t, form);
    Str.ConcatContainsPiece(hp, 1);
    Str.ConcatContainsPiece(hp, 3);
    Str.ConcatContainsPiece(hp, 5);
    Str.ContainsTransitive(r, h, BodyStyle(t, form.theme));
    Str.ContainsTransitive(r, h, ContainerStyle(t, form.theme));
    Str.ContainsTransitive(r, h, HeadingStyle(t, form.primaryColor));
  }

  /**
   * A submit field renders as a bare button, not wrapped in a block, whose
   * background is the primary colour and whose text is the label.
   */
  lemma SubmitButton(t: Template, f: FormField, primary: string)
    requires f.fieldType == Submit
    ensures var b := FieldBlock(t, f, primary);
      var tail := f.labelText + t.submitEnd;
      && Str.StartsWith(b, t.indent + t.submitStart + primary)
      && |tail| <= |b| && b[|b| - |tail|..] == tail
  {
    var ps := [t.indent, t.submitStart, primary, t.submitStyle, f.labelText, t.submitEnd];
    Str.ConcatSplit(ps, 3);
    Str.ConcatSplit(ps, 4);
    assert ps[..3] == [t.indent, t.submitStart, primary] && ps[4..] == [f.labelText, t.submitEnd];
    assert ps[..3] == [t.indent] + [t.submitStart, primary];
    Str.ConcatAppend([t.indent], [t.submitStart, primary]);
    Str.ConcatSingle(t.indent);
    Str.ConcatPair(t.submitStart, primary);
    Str.ConcatPair(f.labelText, t.submitEnd);
  }

  /** `s` with `x` inserted at position `i`. */
  function Spliced(s: string, i: nat, x: string): string
    requires i <= |s|
  {
    s[..i] + x + s[i..]
  }

  /** A control block is its text before the `required` slot, the slot, and the rest. */
  lemma ControlAround(t: Template, f: FormField, primary: string)
    requires IsControl(f.fieldType)
    ensures FieldBlock(t, f, primary)
      == ControlBefore(t, f) + RequiredAttr(f) + Str.Concat([ControlClosing(t, f, primary), t.blockClose])
  {
    var ps := ControlPieces(t, f, primary);
    Str.ConcatAround(ps, 4);
    assert ps[..4] == [t.indent, t.blockOpen, LabelHtml(t, f), ControlOpening(t, f)];
    assert ps[5..] == [ControlClosing(t, f, primary), t.blockClose];
  }

  /** The text around the `required` slot does not depend on the flag. */
  lemma AroundIgnoresRequired(t: Template, f: FormField, primary: string, b: bool)
    requires IsControl(f.fieldType)
    ensures ControlBefore(t, f.(required := b)) == ControlBefore(t, f)
    ensures ControlClosing(t, f.(required := b), primary) == ControlClosing(t, f, primary)
  {
    var g := f.(required := b);
    assert NameText(g) == NameText(f);
    assert LabelHtml(t, g) == LabelHtml(t, f);
    assert IdNameHtml(t, g) == IdNameHtml(t, f);
    assert PlaceholderHtml(t, g) == PlaceholderHtml(t, f);
  }

  /**
   * For text, email, textarea and select the `required` flag makes exactly
   * one difference: the required block is the other one with "required"
   * inserted where the attribute list ends.
   */
  lemma RequiredSlot(t: Template, f: FormField, primary: string)
    requires IsControl(f.fieldType)
    ensures var off := FieldBlock(t, f.(required := false), primary);
      && |ControlBefore(t, f)| <= |off|
      && FieldBlock(t, f.(required := true), primary) == Spliced(off, |ControlBefore(t, f)|, "required")
  {
    var g1, g0 := f.(required := true), f.(required := false);
    ControlAround(t, g1, primary);
    ControlAround(t, g0, primary);
    AroundIgnoresRequired(t, f, primary, true);
    AroundIgnoresRequired(t, f, primary, false);
    var before, after := ControlBefore(t, f), Str.Concat([ControlClosing(t, f, primary), t.blockClose]);
    var off := FieldBlock(t, g0, primary);
    assert off == before + after;
    assert off[..|before|] == before && off[|before|..] == after;
  }

  /**
   * A text, email, textarea or select block labels the control and gives it
   * the field's name, not its id, as both `id` and `name`.
   */
  lemma ControlIdName(t: Template, f: FormField, primary: string)
    requires IsControl(f.fieldType)
    ensures Str.Contains(FieldBlock(t, f, primary), IdNameHtml(t, f))
    ensures Str.Contains(FieldBlock(t, f, primary), LabelHtml(t, f))
  {
    var ps := ControlPieces(t, f, primary);
    Str.ConcatContainsPiece(ps, 2);
    Str.ConcatContainsPiece(ps, 3);
    var o := ControlOpening(t, f);
    if f.fieldType == Textarea {
      Str.ConcatContainsPiece([t.textareaStart, IdNameHtml(t, f), PlaceholderHtml(t, f)], 1);
    } else if f.fieldType == Select {
      Str.ConcatContainsPiece([t.selectStart, IdNameHtml(t, f), " "], 1);
    } else {
      Str.ConcatContainsPiece([t.inputStart, f.fieldType.Tag(), "\" ", IdNameHtml(t, f), PlaceholderHtml(t, f)], 3);
    }
    Str.ContainsTransitive(FieldBlock(t, f, primary), o, IdNameHtml(t, f));
  }

  /**
   * A select block lists the empty-valued placeholder option and then the
   * options, one line each; absent and empty option lists give no lines.
   */
  lemma SelectBlockOptions(t: Template, f: FormField, primary: string)
    requires f.fieldType == Select
    ensures Str.Contains(FieldBlock(t, f, primary), SelectBody(t, f))
    ensures f.options == None || f.options == Some([]) ==> SelectOptions(t, f) == ""
    ensures f.options.Some? ==> forall k :: 0 <= k < |f.options.value| ==>
      Str.Contains(SelectOptions(t, f), SelectOption(t, f.options.value[k]))
  {
    var ps := ControlPieces(t, f, primary);
    Str.ConcatContainsPiece(ps, 5);
    Str.ConcatContainsPiece([StyleHtml(t, primary), SelectBody(t, f)], 1);
    Str.ContainsTransitive(FieldBlock(t, f, primary), ControlClosing(t, f, primary), SelectBody(t, f));
    if f.options.Some? {
      var os := f.options.value;
      forall k | 0 <= k < |os| ensures Str.Contains(SelectOptions(t, f), SelectOption(t, os[k])) {
        Str.JoinContainsParts(SelectLines(t, os), "\n", k);
      }
    }
  }

  /** Options keep their order: one more option adds one more line at the end. */
  lemma SelectOptionsAppend(t: Template, f: FormField, o: string)
    requires f.options.Some? && |f.options.value| >= 1
    ensures SelectOptions(t, f.(options := Some(f.options.value + [o])))
      == SelectOptions(t, f) + "\n" + SelectOption(t, o)
  {
    var os := f.options.value;
    assert SelectLines(t, os + [o]) == SelectLines(t, os) + [SelectOption(t, o)];
    Str.JoinAppend(SelectLines(t, os), SelectOption(t, o), "\n");
  }

  /**
   * A checkbox or radio block has one line per option, each with an input of
   * the field's own type, named after the field and valued with the option,
   * all under the field's label.
   */
  lemma ChoiceBlockInputs(t: Template, f: FormField, primary: string)
    requires IsChoice(f.fieldType) && f.options.Some?
    ensures var os := f.options.value;
      && |ChoiceLines(t, f, os)| == |os|
      && Str.Contains(FieldBlock(t, f, primary), Str.Join(ChoiceLines(t, f, os), "\n"))
      && forall k :: 0 <= k < |os| ==>
           Str.Contains(FieldBlock(t, f, primary), ChoiceInputHtml(t, f.fieldType.Tag(), NameText(f), os[k]))
    ensures Str.Contains(FieldBlock(t, f, primary), f.labelText)
  {
    var os := f.options.value;
    var ty, n := f.fieldType.Tag(), NameText(f);
    var ps := [t.indent, t.blockOpen, t.groupLabel, f.labelText, t.groupStart, ChoiceOptions(t, f), t.groupEnd, t.blockClose];
    var b := FieldBlock(t, f, primary);
    Str.ConcatContainsPiece(ps, 3);
    Str.ConcatContainsPiece(ps, 5);
    forall k | 0 <= k < |os| ensures Str.Contains(b, ChoiceInputHtml(t, ty, n, os[k])) {
      var x := ChoiceInputHtml(t, ty, n, os[k]);
      Str.ConcatContainsPiece([t.choiceStart, x, t.choiceLabelFor, n, "-", os[k], t.choiceLabelStyle, os[k], t.choiceEnd], 1);
      Str.JoinContainsParts(ChoiceLines(t, f, os), "\n", k);
      Str.ContainsTransitive(ChoiceOptions(t, f), ChoiceLine(t, ty, n, os[k]), x);
      Str.ContainsTransitive(b, ChoiceOptions(t, f), x);
    }
  }

  /** Exactly the fields with a rule produce a non-empty block. */
  lemma RenderedBlockNonEmpty(t: Template, f: FormField, primary: string)
    ensures Rendered(f) <==> FieldBlock(t, f, primary) != ""
  {
    if f.fieldType == Submit {
      Str.ConcatLength([t.indent, t.submitStart, primary, t.submitStyle, f.labelText, t.submitEnd], 0);
    } else if IsChoice(f.fieldType) {
      Str.ConcatLength([t.indent, t.blockOpen, t.groupLabel, f.labelText, t.groupStart, ChoiceOptions(t, f), t.groupEnd, t.blockClose], 0);
    } else if IsControl(f.fieldType) {
      Str.ConcatLength(ControlPieces(t, f, primary), 0);
    }
  }

  /**
   * The block is chosen by the field's `type` string, as the `===` tests do:
   * a field whose type reads "text" gets the text block, and a type string
   * none of the tests names gets the empty block.
   */
  lemma BlockByTypeString(t: Template, f: FormField, primary: string)
    ensures Rendered(f) <==> f.fieldType.Tag() in KnownTags
    ensures f.fieldType.Tag() == "submit" ==> FieldBlock(t, f, primary) == SubmitBlock(t, f, primary)
    ensures f.fieldType.Tag() in ["checkbox", "radio"] ==> FieldBlock(t, f, primary) == ChoiceBlock(t, f)
    ensures f.fieldType.Tag() in ["text", "email", "textarea", "select"] ==>
      IsControl(f.fieldType) && FieldBlock(t, f, primary) == Str.Concat(ControlPieces(t, f, primary))
    ensures f.fieldType.Tag() !in KnownTags ==> FieldBlock(t, f, primary) == ""
  {
  }

  lemma RawBlocksConcat(t: Template, a: seq<FormField>, b: seq<FormField>, primary: string)
    ensures RawBlocks(t, a + b, primary) == RawBlocks(t, a, primary) + RawBlocks(t, b, primary)
  {
    MapConcat((f: FormField) => FieldBlock(t, f, primary), a, b);
  }

  /** The blocks of a concatenation are the blocks of its two parts. */
  lemma BlocksConcat(t: Template, a: seq<FormField>, b: seq<FormField>, primary: string)
    ensures Blocks(t, a + b, primary) == Blocks(t, a, primary) + Blocks(t, b, primary)
  {
    RawBlocksConcat(t, a, b, primary);
    Str.DropEmptyConcat(RawBlocks(t, a, primary), RawBlocks(t, b, primary));
  }

  /** One field gives its block if it is rendered and nothing otherwise. */
  lemma BlocksOne(t: Template, f: FormField, primary: string)
    ensures RawBlocks(t, [f], primary) == [FieldBlock(t, f, primary)]
    ensures Blocks(t, [f], primary) == if Rendered(f) then [FieldBlock(t, f, primary)] else []
  {
    RenderedBlockNonEmpty(t, f, primary);
    assert RawBlocks(t, [f], primary)[1..] == [];
  }

  /**
   * The blocks are exactly those of the rendered fields, one each, in field
   * order: a field of any other type adds nothing, not even a blank line.
   */
  lemma {:induction false} BlocksOfRenderedFields(t: Template, fields: seq<FormField>, primary: string)
    ensures Blocks(t, fields, primary) == RawBlocks(t, Filter(Rendered, fields), primary)
    ensures |Blocks(t, fields, primary)| == Count(Rendered, fields)
  {
    if fields != [] {
      var x, rest := fields[0], fields[1..];
      assert fields == [x] + rest;
      BlocksConcat(t, [x], rest, primary);
      BlocksOfRenderedFields(t, rest, primary);
      BlocksOne(t, x, primary);
      FilterConcat(Rendered, [x], rest);
      if Rendered(x) {
        assert Filter(Rendered, [x]) == [x];
        RawBlocksConcat(t, [x], Filter(Rendered, rest), primary);
      } else {
        assert Filter(Rendered, [x]) == [];
      }
    }
  }

  /** Dropping the fields that render nothing leaves the document unchanged. */
  lemma UnrenderedFieldsIgnored(t: Template, form: FormConfig)
    ensures Generate(t, form) == Generate(t, form.(fields := Filter(Rendered, form.fields)))
  {
    var g := Filter(Rendered, form.fields);
    BlocksOfRenderedFields(t, form.fields, form.primaryColor);
    BlocksOfRenderedFields(t, g, form.primaryColor);
    FilterAll(Rendered, g);
  }

  /** Two fields render alike when they differ only in what the export does not read. */
  predicate SameRendering(f: FormField, g: FormField) {
    f.fieldType == g.fieldType && f.labelText == g.labelText && f.placeholder == g.placeholder
    && f.required == g.required && f.options == g.options && f.name == g.name
  }

  lemma SameBlock(t: Template, f: FormField, g: FormField, primary: string)
    requires SameRendering(f, g)
    ensures FieldBlock(t, f, primary) == FieldBlock(t, g, primary)
  {
    assert NameText(f) == NameText(g);
    assert ChoiceLines(t, f, f.options.GetOr([])) == ChoiceLines(t, g, g.options.GetOr([]));
  }

  /**
   * The output depends on the form alone, and not on the field ids, default
   * values, validation rules or the secondary colour.
   */
  lemma OutputIgnoresUnreadParts(t: Template, form: FormConfig, other: FormConfig)
    requires form.theme == other.theme && form.primaryColor == other.primaryColor
    requires |form.fields| == |other.fields|
    requires forall k :: 0 <= k < |form.fields| ==> SameRendering(form.fields[k], other.fields[k])
    ensures Generate(t, form) == Generate(t, other)
  {
    var a := RawBlocks(t, form.fields, form.primaryColor);
    var b := RawBlocks(t, other.fields, other.primaryColor);
    forall k | 0 <= k < |a| ensures a[k] == b[k] {
      SameBlock(t, form.fields[k], other.fields[k], form.primaryColor);
    }
    assert a == b;
  }

  /** The label of a rendered field appears in its block. */
  lemma BlockShowsLabel(t: Template, f: FormField, primary: string)
    requires Rendered(f)
    ensures Str.Contains(FieldBlock(t, f, primary), f.labelText)
  {
    if f.fieldType == Submit {
      Str.ConcatContainsPiece([t.indent, t.submitStart, primary, t.submitStyle, f.labelText, t.submitEnd], 4);
    } else if IsChoice(f.fieldType) {
      Str.ConcatContainsPiece([t.indent, t.blockOpen, t.groupLabel, f.labelText, t.groupStart, ChoiceOptions(t, f), t.groupEnd, t.blockClose], 3);
    } else {
      ControlIdName(t, f, primary);
      Str.ConcatContainsPiece([t.labelFor, NameText(f), t.labelStyle, f.labelText, t.labelEnd], 3);
      Str.ContainsTransitive(FieldBlock(t, f, primary), LabelHtml(t, f), f.labelText);
    }
  }

  /** Each rendered field's block appears in the document. */
  lemma BlockInDocument(t: Template, form: FormConfig, k: nat)
    requires k < |form.fields| && Rendered(form.fields[k])
    ensures Str.Contains(Generate(t, form), FieldBlock(t, form.fields[k], form.primaryColor))
  {
    var f, p := form.fields[k], form.primaryColor;
    BlocksOfRenderedFields(t, form.fields, p);
    var g := Filter(Rendered, form.fields);
    assert f in g;
    var j :| 0 <= j < |g| && g[j] == f;
    Str.JoinContainsParts(Blocks(t, form.fields, p), "\n", j);
    Str.ContainsMiddle(Head(t, form.theme, p), FieldsText(t, form), t.documentTail);
    Str.ContainsTransitive(Generate(t, form), FieldsText(t, form), FieldBlock(t, f, p));
  }

  /** Every rendered field's label appears verbatim in the document. */
  lemma LabelsVerbatim(t: Template, form: FormConfig, k: nat)
    requires k < |form.fields| && Rendered(form.fields[k])
    ensures Str.Contains(Generate(t, form), form.fields[k].labelText)
  {
    var f, p := form.fields[k], form.primaryColor;
    BlockInDocument(t, form, k);
    BlockShowsLabel(t, f, p);
    Str.ContainsTransitive(Generate(t, form), FieldBlock(t, f, p), f.labelText);
  }

  lemma DefaultFieldsRendered()
    ensures Filter(Rendered, DefaultForm().fields) == DefaultForm().fields
  {
    var fs := DefaultForm().fields;
    DefaultFormShape();
    assert Rendered(fs[0]) && Rendered(fs[1]) && Rendered(fs[2]) && Rendered(fs[3]);
    FilterAll(Rendered, fs);
  }

  /** The default form exports four blocks, one per field. */
  lemma DefaultFormBlocks(t: Template)
    ensures |Blocks(t, DefaultForm().fields, DefaultForm().primaryColor)| == 4
  {
    DefaultFieldsRendered();
    BlocksOfRenderedFields(t, DefaultForm().fields, DefaultForm().primaryColor);
  }

  /** The default form's export shows its "Send Message" button. */
  lemma DefaultFormSendMessage(t: Template)
    ensures Str.Contains(Generate(t, DefaultForm()), "Send Message")
  {
    DefaultFormShape();
    LabelsVerbatim(t, DefaultForm(), 3);
  }

  /** In the exported page every rendered field's label appears verbatim. */
  lemma ExportShowsLabels(form: FormConfig, k: nat)
    requires k < |form.fields| && Rendered(form.fields[k])
    ensures Str.Contains(GenerateHTML(form), form.fields[k].labelText)
  {
    LabelsVerbatim(Html, form, k);
  }
}
