/** The claim form (components/ClaimForm.tsx): ten text fields, two check boxes, and a submit
    that goes through only when both boxes are ticked. */
module ClaimForm {
  import opened Common

  /** `formData` */
  datatype ClaimData = ClaimData(
    itemId: string,
    description: string,
    contactName: string,
    contactEmail: string,
    contactPhone: string,
    address: string,
    story: string,
    distinctive: string,
    reward: string,
    preferredContact: string,
    verification: bool,
    terms: bool)

  /** The text fields (the preferred-contact select included). */
  datatype TextField =
    | ItemId | Description | ContactName | ContactEmail | ContactPhone | Address | Story
    | Distinctive | Reward | PreferredContact

  /** The two check boxes. */
  datatype Flag = Verification | Terms

  function GetText(d: ClaimData, f: TextField): string {
    match f
    case ItemId => d.itemId
    case Description => d.description
    case ContactName => d.contactName
    case ContactEmail => d.contactEmail
    case ContactPhone => d.contactPhone
    case Address => d.address
    case Story => d.story
    case Distinctive => d.distinctive
    case Reward => d.reward
    case PreferredContact => d.preferredContact
  }

  function GetFlag(d: ClaimData, g: Flag): bool {
    match g
    case Verification => d.verification
    case Terms => d.terms
  }

  /** A text setter: `{ ...formData, [f]: value }`. */
  function WithText(d: ClaimData, f: TextField, value: string): (r: ClaimData)
    ensures GetText(r, f) == value
    ensures forall h | h != f :: GetText(r, h) == GetText(d, h)
    ensures forall g :: GetFlag(r, g) == GetFlag(d, g)
  {
    match f
    case ItemId => d.(itemId := value)
    case Description => d.(description := value)
    case ContactName => d.(contactName := value)
    case ContactEmail => d.(contactEmail := value)
    case ContactPhone => d.(contactPhone := value)
    case Address => d.(address := value)
    case Story => d.(story := value)
    case Distinctive => d.(distinctive := value)
    case Reward => d.(reward := value)
    case PreferredContact => d.(preferredContact := value)
  }

  /** A check-box setter: `{ ...formData, [g]: checked }`. */
  function WithFlag(d: ClaimData, g: Flag, checked: bool): (r: ClaimData)
    ensures GetFlag(r, g) == checked
    ensures forall h | h != g :: GetFlag(r, h) == GetFlag(d, h)
    ensures forall f :: GetText(r, f) == GetText(d, f)
  {
    match g
    case Verification => d.(verification := checked)
    case Terms => d.(terms := checked)
  }

  /** The initial state: every text field empty, contact by email, both boxes clear. */
  function Initial(): (d: ClaimData)
    ensures forall f | f != PreferredContact :: GetText(d, f) == ""
    ensures d.preferredContact == "email"
    ensures !d.verification && !d.terms
  {
    ClaimData("", "", "", "", "", "", "", "", "", "email", false, false)
  }

  /** One user action on the form. */
  datatype Edit = SetText(field: TextField, value: string) | SetFlag(flag: Flag, checked: bool)

  function ApplyEdit(d: ClaimData, e: Edit): ClaimData {
    match e
    case SetText(f, v) => WithText(d, f, v)
    case SetFlag(g, b) => WithFlag(d, g, b)
  }

  /** The form after a series of actions, first to last. */
  function ApplyAll(d: ClaimData, es: seq<Edit>): ClaimData
    decreases |es|
  {
    if es == [] then d else ApplyAll(ApplyEdit(d, es[0]), es[1..])
  }

  /** A box that ends up ticked was ticked from the start or by one of the actions. */
  lemma {:induction false} FlagNeedsTick(d: ClaimData, es: seq<Edit>, g: Flag)
    requires GetFlag(ApplyAll(d, es), g)
    ensures GetFlag(d, g) || SetFlag(g, true) in es
    decreases |es|
  {
    if es != [] {
      FlagNeedsTick(ApplyEdit(d, es[0]), es[1..], g);
      if SetFlag(g, true) in es[1..] {
        var i :| 0 <= i < |es[1..]| && es[1..][i] == SetFlag(g, true);
        assert es[i + 1] == SetFlag(g, true);
      }
    }
  }

  /** A fresh form passes the submit gate only after both boxes have been ticked. */
  lemma FreshFormNeedsBothTicks(es: seq<Edit>)
    requires ApplyAll(Initial(), es).verification && ApplyAll(Initial(), es).terms
    ensures SetFlag(Verification, true) in es && SetFlag(Terms, true) in es
  {
    FlagNeedsTick(Initial(), es, Verification);
    FlagNeedsTick(Initial(), es, Terms);
  }

  /** The mounted form. */
  class ClaimFormState {
    var data: ClaimData

    constructor ()
      ensures data == Initial()
    {
      data := Initial();
    }

    /** One of the text or select setters. */
    method SetTextField(f: TextField, value: string)
      modifies this
      ensures data == WithText(old(data), f, value)
    {
      data := WithText(data, f, value);
    }

    /** One of the two check boxes' `onCheckedChange`. */
    method SetFlagField(g: Flag, checked: bool)
      modifies this
      ensures data == WithFlag(old(data), g, checked)
    {
      data := WithFlag(data, g, checked);
    }

    /** `handleSubmit`: `onSubmit(formData)` exactly when both boxes are ticked, with the
        whole form state; otherwise nothing is submitted (the alert is not modelled). */
    method HandleSubmit() returns (submitted: Option<ClaimData>)
      ensures submitted.Some? <==> data.verification && data.terms
      ensures submitted.Some? ==> submitted.value == data
    {
      if !data.verification || !data.terms {
        return None;
      }
      submitted := Some(data);
    }
  }
}
