/** The theft-report form (components/TheftReportForm.tsx): its state is the report without
    `id`, `status` and `createdAt`; it starts from the report being edited, if any. */
module TheftReportForm {
  import opened Common
  import opened Records

  /** `Omit<TheftReport, "id" | "status" | "createdAt">`, as the form holds it. */
  datatype TheftForm = TheftForm(
    itemName: string,
    description: string,
    date: string,
    location: string,
    reporterName: string,
    reporterContact: string,
    suspectName: string,
    suspectDescription: string,
    suspectLastSeen: string)

  /** The field names `handleChange` is called with. */
  datatype Field =
    | ItemName | Description | Date | Location | ReporterName | ReporterContact
    | SuspectName | SuspectDescription | SuspectLastSeen

  function Get(form: TheftForm, f: Field): string {
    match f
    case ItemName => form.itemName
    case Description => form.description
    case Date => form.date
    case Location => form.location
    case ReporterName => form.reporterName
    case ReporterContact => form.reporterContact
    case SuspectName => form.suspectName
    case SuspectDescription => form.suspectDescription
    case SuspectLastSeen => form.suspectLastSeen
  }

  /** `{ ...prev, [field]: value }`: that one field set to `value`, every other field kept. */
  function With(form: TheftForm, f: Field, value: string): (r: TheftForm)
    ensures Get(r, f) == value
    ensures forall g | g != f :: Get(r, g) == Get(form, g)
  {
    match f
    case ItemName => form.(itemName := value)
    case Description => form.(description := value)
    case Date => form.(date := value)
    case Location => form.(location := value)
    case ReporterName => form.(reporterName := value)
    case ReporterContact => form.(reporterContact := value)
    case SuspectName => form.(suspectName := value)
    case SuspectDescription => form.(suspectDescription := value)
    case SuspectLastSeen => form.(suspectLastSeen := value)
  }

  /** `s || ""` for a string that may be missing. */
  function OrEmpty(s: Option<string>): string {
    if s.Some? then s.value else ""
  }

  /** The fields of a report the form can show and submit. */
  function FormOf(r: TheftReport): TheftForm {
    TheftForm(r.itemName, r.description, r.date, r.location, r.reporterName,
              r.reporterContact, OrEmpty(r.suspectName), r.suspectDescription, r.suspectLastSeen)
  }

  /** The initial state: each field of `initialData`, or "" when there is none; the date
      defaults to `today` (an opaque date string) when missing or empty. */
  function Initial(initial: Option<TheftReport>, today: string): (form: TheftForm)
    ensures initial.None? ==> form == TheftForm("", "", today, "", "", "", "", "", "")
    ensures initial.Some? ==>
      var r := initial.value;
      && (forall f | f != Date :: Get(form, f) == Get(FormOf(r), f))
      && form.date == (if r.date != "" then r.date else today)
  {
    if initial.None? then TheftForm("", "", today, "", "", "", "", "", "")
    else
      var r := initial.value;
      FormOf(r).(date := if r.date != "" then r.date else today)
  }

  /** Opening the form on a report with a date and then submitting it untouched gives back
      exactly that report's form fields. */
  lemma InitialRoundTrip(r: TheftReport, today: string)
    requires r.date != ""
    ensures Initial(Some(r), today) == FormOf(r)
  {
  }

  /** The mounted form: `formData` and its two handlers. */
  class FormState {
    var data: TheftForm

    constructor (initial: Option<TheftReport>, today: string)
      ensures data == Initial(initial, today)
    {
      data := Initial(initial, today);
    }

    /** `handleChange(field, value)` */
    method HandleChange(f: Field, value: string)
      modifies this
      ensures data == With(old(data), f, value)
    {
      data := With(data, f, value);
    }

    /** `handleSubmit`: passes the current form state, unchanged, to `onSubmit`. The type
        `TheftForm` carries no id, status or createdAt. */
    method HandleSubmit() returns (submitted: TheftForm)
      ensures submitted == data
    {
      submitted := data;
    }
  }
}
