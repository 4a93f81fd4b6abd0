// The form builder: a list of questions, each with a type, a required flag and, for
// choice questions, a list of options. Labels and options that the user has not
// edited carry default texts in the current language and are renumbered when the
// language changes.
module CriarFormulario {
  import opened Wrappers
  import opened Lists
  import Text

  datatype InputType = TextType | NumberType | DateType | EmailType | TextareaType | SelectType

  /** An option of a choice question; `isDefault` marks the generated text. */
  datatype FormOption = FormOption(text: string, isDefault: bool)

  datatype FormField = FormField(id: string, labelText: string, isDefaultLabel: bool, kind: InputType,
                                 required: bool, options: seq<FormOption>)

  /** The texts of the current language the builder uses: the default question label,
      the default option stem and the message for an incomplete form. */
  datatype Texts = Texts(newQuestion: string, optionPlaceholder: string, alertFill: string)

  /** The three edits the question editor makes: label, type and required flag. */
  datatype Edit = SetLabel(labelText: string) | SetType(kind: InputType) | SetRequired(required: bool)

  /** The generated option in position `n` (counting from 1): "<stem> <n>". */
  function DefaultOption(placeholder: string, n: nat): (o: FormOption)
    ensures o.isDefault
    ensures o.text == placeholder + " " + Text.NatToString(n)
  {
    FormOption(placeholder + " " + Text.NatToString(n), true)
  }

  /** Every generated option of `f` carries the number of its position. */
  predicate Numbered(f: FormField, placeholder: string) {
    forall i :: 0 <= i < |f.options| && f.options[i].isDefault ==>
      f.options[i] == DefaultOption(placeholder, i + 1)
  }

  // ---------------------------------------------------------------------------
  // Single fields
  // ---------------------------------------------------------------------------

  /** A new question: default label, free text, required, no options. */
  function NewField(id: string, texts: Texts): (f: FormField)
    ensures f.id == id && f.isDefaultLabel && f.labelText == texts.newQuestion
    ensures f.kind == TextType && f.required && f.options == []
  {
    FormField(id, texts.newQuestion, true, TextType, true, [])
  }

  /** One edit of a question. Setting the label marks it user-written; switching to a
      choice question with no options seeds options 1 and 2. */
  function Edited(f: FormField, e: Edit, placeholder: string): (g: FormField)
    ensures g.id == f.id
    ensures g.labelText == (if e.SetLabel? then e.labelText else f.labelText)
    ensures g.isDefaultLabel == (f.isDefaultLabel && !e.SetLabel?)
    ensures g.kind == (if e.SetType? then e.kind else f.kind)
    ensures g.required == (if e.SetRequired? then e.required else f.required)
    ensures e == SetType(SelectType) && f.options == [] ==>
              g.options == [DefaultOption(placeholder, 1), DefaultOption(placeholder, 2)]
    ensures !(e == SetType(SelectType) && f.options == []) ==> g.options == f.options
  {
    match e
    case SetLabel(labelText) => f.(labelText := labelText, isDefaultLabel := false)
    case SetRequired(required) => f.(required := required)
    case SetType(kind) =>
      if kind == SelectType && f.options == [] then
        f.(kind := kind, options := [DefaultOption(placeholder, 1), DefaultOption(placeholder, 2)])
      else f.(kind := kind)
  }

  /** The seeded options of a new choice question are numbered. */
  lemma EditKeepsNumbered(f: FormField, e: Edit, placeholder: string)
    requires Numbered(f, placeholder)
    ensures Numbered(Edited(f, e, placeholder), placeholder)
  {
  }

  /** Appending an option to `opts`: the next default, numbered length + 1. */
  function WithNewOption(opts: seq<FormOption>, placeholder: string): (r: seq<FormOption>)
    ensures |r| == |opts| + 1 && r[..|opts|] == opts
    ensures r[|opts|] == DefaultOption(placeholder, |opts| + 1)
  {
    opts + [DefaultOption(placeholder, |opts| + 1)]
  }

  /** Typing into option `index` makes it user-written. An index past the end leaves
      the options as they are. */
  function WithOptionText(opts: seq<FormOption>, index: nat, value: string): (r: seq<FormOption>)
    ensures |r| == |opts|
    ensures forall i :: 0 <= i < |opts| && i != index ==> r[i] == opts[i]
    ensures index < |opts| ==> r[index] == FormOption(value, false)
  {
    if index < |opts| then opts[index := FormOption(value, false)] else opts
  }

  /** `options.filter((_, i) => i !== index)`: drops exactly position `index`. */
  function WithoutOption(opts: seq<FormOption>, index: nat): (r: seq<FormOption>)
    ensures index < |opts| ==> |r| == |opts| - 1
    ensures index >= |opts| ==> r == opts
    ensures forall i :: 0 <= i < |r| ==> r[i] == if i < index then opts[i] else opts[i + 1]
  {
    if index < |opts| then opts[..index] + opts[index + 1..] else opts
  }

  lemma NewOptionKeepsNumbered(f: FormField, placeholder: string)
    requires Numbered(f, placeholder)
    ensures Numbered(f.(options := WithNewOption(f.options, placeholder)), placeholder)
  {
  }

  lemma OptionTextKeepsNumbered(f: FormField, index: nat, value: string, placeholder: string)
    requires Numbered(f, placeholder)
    ensures Numbered(f.(options := WithOptionText(f.options, index, value)), placeholder)
  {
  }

  /** Removing the last option keeps the numbering. */
  lemma RemovingLastKeepsNumbered(f: FormField, placeholder: string)
    requires Numbered(f, placeholder) && f.options != []
    ensures Numbered(f.(options := WithoutOption(f.options, |f.options| - 1)), placeholder)
  {
  }

  /** Removing an earlier option does not renumber the later ones: after removing
      option 1 of two, the remaining option still reads "2", and adding an option
      then gives a second "2". Only a language change renumbers them. */
  lemma RemovingFirstRepeatsNumber(placeholder: string)
    ensures var opts := WithoutOption([DefaultOption(placeholder, 1), DefaultOption(placeholder, 2)], 0);
            var added := WithNewOption(opts, placeholder);
            |added| == 2 && added[0].text == added[1].text
            && !Numbered(FormField("q", "", true, SelectType, true, opts), placeholder)
  {
    var opts := WithoutOption([DefaultOption(placeholder, 1), DefaultOption(placeholder, 2)], 0);
    assert opts == [DefaultOption(placeholder, 2)];
    var added := WithNewOption(opts, placeholder);
    assert added == [DefaultOption(placeholder, 2), DefaultOption(placeholder, 2)];
    Text.DecimalRoundTrip(1);
    Text.DecimalRoundTrip(2);
    assert Text.NatToString(1) != Text.NatToString(2);
    assert (placeholder + " " + Text.NatToString(1))[|placeholder| + 1..] == Text.NatToString(1);
    assert (placeholder + " " + Text.NatToString(2))[|placeholder| + 1..] == Text.NatToString(2);
    assert DefaultOption(placeholder, 2) != DefaultOption(placeholder, 1);
  }

  /** The language pass on one question: a default label becomes the new default,
      and every default option is renamed after its position. */
  function Relabeled(f: FormField, texts: Texts): (g: FormField)
    ensures g.id == f.id && g.kind == f.kind && g.required == f.required
    ensures g.isDefaultLabel == f.isDefaultLabel
    ensures g.labelText == if f.isDefaultLabel then texts.newQuestion else f.labelText
    ensures |g.options| == |f.options|
    ensures forall i :: 0 <= i < |f.options| ==>
              g.options[i] == if f.options[i].isDefault then DefaultOption(texts.optionPlaceholder, i + 1) else f.options[i]
  {
    var options := seq(|f.options|, i requires 0 <= i < |f.options| =>
                         if f.options[i].isDefault then DefaultOption(texts.optionPlaceholder, i + 1) else f.options[i]);
    f.(labelText := if f.isDefaultLabel then texts.newQuestion else f.labelText, options := options)
  }

  /** After a language change every question is numbered in the new language, and
      the user-written labels and options are exactly as before. */
  lemma RelabeledNumbered(f: FormField, texts: Texts)
    ensures Numbered(Relabeled(f, texts), texts.optionPlaceholder)
    ensures forall i :: 0 <= i < |f.options| && !f.options[i].isDefault ==> Relabeled(f, texts).options[i] == f.options[i]
  {
  }

  /** A second language pass with the same texts changes nothing. */
  lemma RelabeledIdempotent(f: FormField, texts: Texts)
    ensures Relabeled(Relabeled(f, texts), texts) == Relabeled(f, texts)
  {
    var g := Relabeled(f, texts);
    var h := Relabeled(g, texts);
    assert h.options == g.options;
  }

  /** A numbered question is left as it is by a pass in the language it was numbered
      in, when its default label already reads the default text. */
  lemma RelabeledFixesNumbered(f: FormField, texts: Texts)
    requires Numbered(f, texts.optionPlaceholder)
    requires f.isDefaultLabel ==> f.labelText == texts.newQuestion
    ensures Relabeled(f, texts) == f
  {
    var g := Relabeled(f, texts);
    assert g.options == f.options;
  }

  // ---------------------------------------------------------------------------
  // The question list
  // ---------------------------------------------------------------------------

  /** The per-question changes of the editor: an edit of the question itself, and
      adding, typing into or removing one of its options. */
  datatype Change = EditField(edit: Edit) | NewOption | OptionText(index: nat, value: string) | DropOption(index: nat)

  function Changed(f: FormField, c: Change, placeholder: string): (g: FormField)
    ensures g.id == f.id
    ensures !c.EditField? ==> g == f.(options := g.options)
  {
    match c
    case EditField(e) => Edited(f, e, placeholder)
    case NewOption => f.(options := WithNewOption(f.options, placeholder))
    case OptionText(index, value) => f.(options := WithOptionText(f.options, index, value))
    case DropOption(index) => f.(options := WithoutOption(f.options, index))
  }

  /** Every change keeps the numbering, except removing an option before the last. */
  lemma ChangeKeepsNumbered(f: FormField, c: Change, placeholder: string)
    requires Numbered(f, placeholder)
    requires c.DropOption? ==> c.index + 1 >= |f.options|
    ensures Numbered(Changed(f, c, placeholder), placeholder)
  {
    match c
    case EditField(e) => EditKeepsNumbered(f, e, placeholder);
    case NewOption => NewOptionKeepsNumbered(f, placeholder);
    case OptionText(index, value) => OptionTextKeepsNumbered(f, index, value, placeholder);
    case DropOption(index) =>
      if index < |f.options| {
        RemovingLastKeepsNumbered(f, placeholder);
      }
  }

  /** A change applied to the questions with id `id`; the others are kept. */
  function ChangedAt(fields: seq<FormField>, id: string, c: Change, placeholder: string): (r: seq<FormField>)
    ensures |r| == |fields|
    ensures forall i :: 0 <= i < |fields| ==> r[i] == if fields[i].id == id then Changed(fields[i], c, placeholder) else fields[i]
  {
    Map(fields, (f: FormField) => if f.id == id then Changed(f, c, placeholder) else f)
  }

  predicate AllNumbered(fields: seq<FormField>, placeholder: string) {
    forall i :: 0 <= i < |fields| ==> Numbered(fields[i], placeholder)
  }

  /** The list-wide form of `ChangeKeepsNumbered`. */
  lemma ChangedAtKeepsNumbered(fields: seq<FormField>, id: string, c: Change, placeholder: string)
    requires AllNumbered(fields, placeholder)
    requires c.DropOption? ==> forall i :: 0 <= i < |fields| && fields[i].id == id ==> c.index + 1 >= |fields[i].options|
    ensures AllNumbered(ChangedAt(fields, id, c, placeholder), placeholder)
  {
    var r := ChangedAt(fields, id, c, placeholder);
    forall i | 0 <= i < |fields| ensures Numbered(r[i], placeholder) {
      if fields[i].id == id {
        ChangeKeepsNumbered(fields[i], c, placeholder);
      }
    }
  }

  function WithoutField(fields: seq<FormField>, id: string): (r: seq<FormField>)
    ensures forall i :: 0 <= i < |r| ==> r[i] in fields && r[i].id != id
    ensures forall i :: 0 <= i < |fields| && fields[i].id != id ==> fields[i] in r
  {
    Filter(fields, (f: FormField) => f.id != id)
  }

  function RelabeledAll(fields: seq<FormField>, texts: Texts): (r: seq<FormField>)
    ensures |r| == |fields|
    ensures forall i :: 0 <= i < |fields| ==> r[i] == Relabeled(fields[i], texts)
  {
    Map(fields, (f: FormField) => Relabeled(f, texts))
  }

  /** Sending is refused unless there is a title, a recipient and at least one question. */
  predicate Complete(title: string, recipient: string, fields: seq<FormField>) {
    title != [] && recipient != [] && fields != []
  }

  /** The form builder page. `texts` holds the current language's texts. */
  class FormBuilder {
    var title: string
    var recipientEmail: string
    var fields: seq<FormField>
    var texts: Texts
    var alert: Option<string>
    var showSuccess: bool
    var route: Option<string>

    constructor(language: Texts)
      ensures title == [] && recipientEmail == [] && fields == [] && texts == language
      ensures alert == None && !showSuccess && route == None
    {
      title, recipientEmail, fields, texts := [], [], [], language;
      alert, showSuccess, route := None, false, None;
    }

    /** Every question is numbered in the current language. */
    predicate Numbering()
      reads this
    {
      AllNumbered(fields, texts.optionPlaceholder)
    }

    method SetTitle(value: string)
      modifies this`title
      ensures title == value
    {
      title := value;
    }

    method SetRecipientEmail(value: string)
      modifies this`recipientEmail
      ensures recipientEmail == value
    {
      recipientEmail := value;
    }

    /** Appends a new question; `id` is the generated identifier. */
    method AddField(id: string)
      modifies this`fields
      ensures fields == old(fields) + [NewField(id, texts)]
      ensures old(Numbering()) ==> Numbering()
    {
      fields := fields + [NewField(id, texts)];
    }

    /** Applies `c` to the question with id `id`. Only removing an option other than
        the last can break the numbering. */
    method Apply(id: string, c: Change)
      modifies this`fields
      ensures fields == ChangedAt(old(fields), id, c, texts.optionPlaceholder)
      ensures old(Numbering()) && !c.DropOption? ==> Numbering()
    {
      if Numbering() && !c.DropOption? {
        ChangedAtKeepsNumbered(fields, id, c, texts.optionPlaceholder);
      }
      fields := ChangedAt(fields, id, c, texts.optionPlaceholder);
    }

    method RemoveField(id: string)
      modifies this`fields
      ensures fields == WithoutField(old(fields), id)
      ensures old(Numbering()) ==> Numbering()
    {
      fields := WithoutField(fields, id);
    }

    /** A language change: the new texts, and the language pass over every question,
        after which every question is numbered. */
    method ChangeLanguage(language: Texts)
      modifies this`fields, this`texts
      ensures texts == language
      ensures fields == RelabeledAll(old(fields), language)
      ensures Numbering()
    {
      texts := language;
      fields := RelabeledAll(fields, language);
      forall i | 0 <= i < |fields| ensures Numbered(fields[i], texts.optionPlaceholder) {
        RelabeledNumbered(old(fields)[i], language);
      }
    }

    /** Sending: an incomplete form only shows the message; a complete one opens the
        confirmation. */
    method Submit()
      modifies this`alert, this`showSuccess
      ensures !Complete(title, recipientEmail, fields) ==> alert == Some(texts.alertFill) && showSuccess == old(showSuccess)
      ensures Complete(title, recipientEmail, fields) ==> alert == old(alert) && showSuccess
    {
      if !Complete(title, recipientEmail, fields) {
        alert := Some(texts.alertFill);
        return;
      }
      showSuccess := true;
    }

    /** Closing the confirmation returns to the dashboard. */
    method CloseSuccess()
      modifies this`showSuccess, this`route
      ensures !showSuccess && route == Some("/app")
    {
      showSuccess := false;
      route := Some("/app");
    }
  }
}
