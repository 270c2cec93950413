/** The state of the generator page: the form values and the current link,
    with the submit, reset, copy and input-handling operations that change or
    read them. */
module HomePage {
  import opened Wrappers
  import opened UpiLink
  import opened Lowercase

  /** The form record: all four inputs are strings, the optional ones
      defaulting to the empty string. */
  datatype FormValues = FormValues(upiId: string, senderName: string, message: string, amount: string)

  /** The values the form starts with and returns to on reset. */
  const Defaults: FormValues := FormValues("someone@okaxis", "", "", "399")

  /** The one validation rule of the form schema. */
  datatype ValidationError = UpiIdEmpty

  /** The four inputs of the form. */
  datatype Field = UpiIdField | SenderNameField | MessageField | AmountField

  /** What a submission of `values` yields: a validation error when the UPI id
      is empty, otherwise the link built from the id, the name and the amount. */
  function Build(values: FormValues): (r: Result<string, ValidationError>)
    ensures r.Failure? <==> values.upiId == []
    ensures r.Failure? ==> r.error == UpiIdEmpty
    ensures r.Success? ==> r.value == BuildLink(values.upiId, values.senderName, values.amount)
  {
    if values.upiId == [] then Failure(UpiIdEmpty)
    else Success(BuildLink(values.upiId, values.senderName, values.amount))
  }

  /** The message input never reaches the link. */
  lemma BuildIgnoresMessage(values: FormValues, message: string)
    ensures Build(values.(message := message)) == Build(values)
  {
  }

  /** The form as it is submitted untouched. */
  lemma BuildDefaults()
    ensures Build(Defaults) == Success("upi://pay?pa=someone@okaxis&pn=&mc=&tid=&tr=&tn=&am=399&cu=INR")
  {
    assert BuildLink("someone@okaxis", "", "399")
        == PayeePrefix + "someone@okaxis" + NameKey + EmptyKeys + "399" + CurrencySuffix;
    DefaultsLinkText();
  }

  /** The default values pasted into the template, spelled out. */
  lemma DefaultsLinkText()
    ensures PayeePrefix + "someone@okaxis" + NameKey + EmptyKeys + "399" + CurrencySuffix
         == "upi://pay?pa=someone@okaxis&pn=&mc=&tid=&tr=&tn=&am=399&cu=INR"
  {
    var soFar := PayeePrefix + "someone@okaxis";
    assert soFar == "upi://pay?pa=someone@okaxis";
    soFar := soFar + NameKey;
    assert soFar == "upi://pay?pa=someone@okaxis&pn=";
    soFar := soFar + EmptyKeys;
    assert soFar == "upi://pay?pa=someone@okaxis&pn=&mc=&tid=&tr=&tn=&am=";
    soFar := soFar + "399";
    assert soFar == "upi://pay?pa=someone@okaxis&pn=&mc=&tid=&tr=&tn=&am=399";
  }

  class Page {
    /** The generated link, or none. */
    var link: Option<string>
    /** The current form values. */
    var form: FormValues
    /** The form values the current link was built from. */
    ghost var submitted: FormValues

    /** The stored UPI id never holds a capital letter, and a link on display
        always comes from an accepted submission of a lower-case id. */
    ghost predicate Valid()
      reads this
    {
      && IsLower(form.upiId)
      && (link.Some? ==> IsLower(submitted.upiId) && Build(submitted) == Success(link.value))
    }

    constructor ()
      ensures Valid()
      ensures link == None && form == Defaults
    {
      link := None;
      form := Defaults;
      submitted := Defaults;
    }

    /** Typing `typed` into one input. The UPI id input lowercases what was
        typed before the form stores it; the other inputs store it verbatim.
        The link is untouched. */
    method Input(field: Field, typed: string)
      requires Valid()
      modifies this
      ensures Valid()
      ensures link == old(link) && submitted == old(submitted)
      ensures form == match field
        case UpiIdField => old(form).(upiId := ToLower(typed))
        case SenderNameField => old(form).(senderName := typed)
        case MessageField => old(form).(message := typed)
        case AmountField => old(form).(amount := typed)
    {
      match field
      case UpiIdField => form := form.(upiId := ToLower(typed));
      case SenderNameField => form := form.(senderName := typed);
      case MessageField => form := form.(message := typed);
      case AmountField => form := form.(amount := typed);
    }

    /** Submitting the form: on a valid form the link is replaced by the one
        built from it; on an empty UPI id the error is returned and the link
        stays whatever it was. The form is not changed. */
    method Submit() returns (outcome: Result<string, ValidationError>)
      requires Valid()
      modifies this
      ensures Valid()
      ensures form == old(form)
      ensures outcome.Failure? <==> old(form).upiId == []
      ensures outcome.Failure? ==> outcome.error == UpiIdEmpty
      ensures outcome.Success? ==> outcome.value == BuildLink(form.upiId, form.senderName, form.amount)
      ensures link == if outcome.Success? then Some(outcome.value) else old(link)
      ensures outcome.Success? ==> IsLower(form.upiId)
    {
      outcome := Build(form);
      if outcome.Success? {
        link := Some(outcome.value);
        submitted := form;
      }
    }

    /** Clearing: the link goes and the form returns to its defaults, together. */
    method Reset()
      modifies this
      ensures Valid()
      ensures link == None && form == Defaults
    {
      link := None;
      form := Defaults;
    }

    /** The text put on the clipboard: nothing unless the link is set and
        non-empty, otherwise exactly the link. A link on display is never
        empty, so this is exactly the current link. Nothing changes. */
    method Copy() returns (copied: Option<string>)
      requires Valid()
      ensures copied == link
      ensures copied.Some? ==> |copied.value| > 0
    {
      if link.Some? && link.value != "" {
        copied := Some(link.value);
      } else {
        copied := None;
      }
    }
  }

  /** A session on the page, from the defaults through a case-normalised id,
      a rejected submission, a copy and a reset. */
  method Session()
  {
    var page := new Page();
    var outcome := page.Submit();
    BuildDefaults();
    assert page.link == Some("upi://pay?pa=someone@okaxis&pn=&mc=&tid=&tr=&tn=&am=399&cu=INR");

    page.Input(UpiIdField, "X@Y");
    page.Input(AmountField, "");
    assert ToLower("X@Y") == "x@y";
    outcome := page.Submit();
    assert outcome == Success(BuildLink("x@y", "", ""));
    var earlier := page.link;

    page.Input(UpiIdField, "");
    assert page.form.upiId == [];
    outcome := page.Submit();
    assert outcome == Failure(UpiIdEmpty);
    assert page.link == earlier;

    var copied := page.Copy();
    assert copied == earlier;

    page.Reset();
    assert page.link == None && page.form == Defaults;
    copied := page.Copy();
    assert copied == None;
  }
}
