/** The lost/found item form (components/ItemReportForm.tsx): seven text fields, the item
    type given by the caller, and the placeholder image used when no URL is entered. */
module ItemReportForm {
  import opened Records

  /** `formData` */
  datatype ItemForm = ItemForm(
    title: string,
    description: string,
    category: string,
    location: string,
    date: string,
    contact: string,
    imageUrl: string)

  /** The fields the setters write. */
  datatype ItemField = Title | Description | Category | Location | Date | Contact | ImageUrl

  function Get(form: ItemForm, f: ItemField): string {
    match f
    case Title => form.title
    case Description => form.description
    case Category => form.category
    case Location => form.location
    case Date => form.date
    case Contact => form.contact
    case ImageUrl => form.imageUrl
  }

  /** `setFormData({ ...formData, [f]: value })` */
  function With(form: ItemForm, f: ItemField, value: string): (r: ItemForm)
    ensures Get(r, f) == value
    ensures forall g | g != f :: Get(r, g) == Get(form, g)
  {
    match f
    case Title => form.(title := value)
    case Description => form.(description := value)
    case Category => form.(category := value)
    case Location => form.(location := value)
    case Date => form.(date := value)
    case Contact => form.(contact := value)
    case ImageUrl => form.(imageUrl := value)
  }

  /** The initial state: every field empty except the date, which is `today` (an opaque
      `YYYY-MM-DD` string). */
  function Initial(today: string): (form: ItemForm)
    ensures form.date == today
    ensures forall f | f != Date :: Get(form, f) == ""
  {
    ItemForm("", "", "", "", today, "", "")
  }

  const PlaceholderImage := "https://images.unsplash.com/photo-1578662996442-48f60103fc96?w=400"

  /** `Omit<Item, "id" | "status">`: what the form hands to its caller. */
  datatype ItemDraft = ItemDraft(
    itemType: ItemType,
    title: string,
    description: string,
    category: string,
    location: string,
    date: string,
    contact: string,
    imageUrl: string)

  /** `{ ...formData, type, imageUrl: formData.imageUrl || placeholder }` */
  function Submission(form: ItemForm, t: ItemType): (d: ItemDraft)
    ensures d.itemType == t
    ensures d.title == form.title && d.description == form.description
    ensures d.category == form.category && d.location == form.location
    ensures d.date == form.date && d.contact == form.contact
    ensures form.imageUrl != "" ==> d.imageUrl == form.imageUrl
    ensures form.imageUrl == "" ==> d.imageUrl == PlaceholderImage
  {
    ItemDraft(t, form.title, form.description, form.category, form.location, form.date,
              form.contact, if form.imageUrl != "" then form.imageUrl else PlaceholderImage)
  }

  /** The form fields a draft carries. */
  function FormOf(d: ItemDraft): ItemForm {
    ItemForm(d.title, d.description, d.category, d.location, d.date, d.contact, d.imageUrl)
  }

  /** A submitted draft always has an image, and submitting the form a draft came from gives
      that draft back: the placeholder default is applied once and then kept. */
  lemma SubmissionRoundTrip(form: ItemForm, t: ItemType)
    ensures Submission(form, t).imageUrl != ""
    ensures Submission(FormOf(Submission(form, t)), t) == Submission(form, t)
    ensures form.imageUrl != "" ==> FormOf(Submission(form, t)) == form
  {
  }

  /** The mounted form. */
  class ItemFormState {
    var data: ItemForm

    constructor (today: string)
      ensures data == Initial(today)
    {
      data := Initial(today);
    }

    /** One of the seven `onChange` / `onValueChange` setters. */
    method SetField(f: ItemField, value: string)
      modifies this
      ensures data == With(old(data), f, value)
    {
      data := With(data, f, value);
    }

    /** `handleSubmit`, for the form's `type` prop. */
    method HandleSubmit(t: ItemType) returns (submitted: ItemDraft)
      ensures submitted == Submission(data, t)
    {
      submitted := Submission(data, t);
    }
  }
}
