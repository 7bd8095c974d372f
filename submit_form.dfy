/** The citizen submission form: routing a category to its agency through two
    parallel tables, the JSON body it posts, and the form state around it. */
module SubmitComplaintForm {
  import opened Wrappers
  import opened Sequences

  const Categories: seq<string> := [
    "Roads and Infrastructure",
    "Water Supply",
    "Electricity",
    "Waste Management",
    "Public Transport",
    "Healthcare",
    "Education",
    "Public Safety",
    "Environment",
    "Other"
  ]

  const Agencies: seq<string> := [
    "Department of Public Works",
    "Water Authority",
    "Electricity Board",
    "Waste Management Department",
    "Transport Authority",
    "Health Department",
    "Education Department",
    "Police Department",
    "Environmental Protection Agency",
    "General Administration"
  ]

  /** No category is listed twice. */
  lemma CategoriesDistinct()
    ensures |Categories| == |Agencies| == 10
    ensures forall i, j :: 0 <= i < j < |Categories| ==> Categories[i] != Categories[j]
  {
    forall i, j | 0 <= i < j < |Categories| ensures Categories[i] != Categories[j] {
      if i == 2 && j == 8 {
        assert Categories[i][1] != Categories[j][1];
      } else if i == 3 && j == 4 {
        assert Categories[i][0] != Categories[j][0];
      } else {
        assert |Categories[i]| != |Categories[j]|;
      }
    }
  }

  /** `CATEGORIES.indexOf(category)`, then the agency at that index, or the
      last agency when the category is not listed. */
  function RouteAgency(category: string): (agency: string)
    ensures category !in Categories ==> agency == "General Administration"
  {
    var i := IndexOf(Categories, category);
    if i != -1 then Agencies[i] else Agencies[|Agencies| - 1]
  }

  /** Routing always yields a listed agency; an unlisted category (the empty
      one included) falls back to "General Administration". */
  lemma RouteAgencyTotal(category: string)
    ensures RouteAgency(category) in Agencies
    ensures category !in Categories ==> RouteAgency(category) == "General Administration"
  {
  }

  /** The category at index `i` is routed to the agency at index `i`. */
  lemma RouteAgencyByIndex(i: nat)
    requires i < |Categories|
    ensures RouteAgency(Categories[i]) == Agencies[i]
  {
    CategoriesDistinct();
    IndexOfDistinct(Categories, i);
  }

  /** A selected file; only its name matters here. */
  datatype Attachment = Attachment(name: string)

  datatype FormField = Title | Description | Category | Location | Name | Email | Phone

  datatype FormData = FormData(
    title: string,
    description: string,
    category: string,
    location: string,
    name: string,
    email: string,
    phone: string,
    attachments: seq<Attachment>)

  /** The initial form and the form after a successful submission. */
  const EmptyForm := FormData("", "", "", "", "", "", "", [])

  /** `{ ...prev, [name]: value }` for one of the text inputs. */
  function SetField(f: FormData, field: FormField, value: string): (r: FormData)
    ensures r.attachments == f.attachments
    ensures field == Title ==> r == f.(title := value)
    ensures field == Description ==> r == f.(description := value)
    ensures field == Category ==> r == f.(category := value)
    ensures field == Location ==> r == f.(location := value)
    ensures field == Name ==> r == f.(name := value)
    ensures field == Email ==> r == f.(email := value)
    ensures field == Phone ==> r == f.(phone := value)
  {
    match field
    case Title => f.(title := value)
    case Description => f.(description := value)
    case Category => f.(category := value)
    case Location => f.(location := value)
    case Name => f.(name := value)
    case Email => f.(email := value)
    case Phone => f.(phone := value)
  }

  /** The JSON body posted to the complaints endpoint. It has no attachments. */
  datatype Payload = Payload(
    title: string,
    description: string,
    category: string,
    location: string,
    name: string,
    email: string,
    phone: string,
    agency: string)

  /** The body is the form's seven text fields unchanged plus the routed agency. */
  function BuildPayload(f: FormData): (p: Payload)
    ensures p.agency == RouteAgency(f.category)
    ensures (p.title, p.description, p.category, p.location) == (f.title, f.description, f.category, f.location)
    ensures (p.name, p.email, p.phone) == (f.name, f.email, f.phone)
  {
    Payload(f.title, f.description, f.category, f.location, f.name, f.email, f.phone, RouteAgency(f.category))
  }

  /** Forms that differ only in their attachments post the same body. */
  lemma PayloadIgnoresAttachments(f: FormData, files: seq<Attachment>)
    ensures BuildPayload(f.(attachments := files)) == BuildPayload(f)
  {
  }

  /** The form component's state. `success` holds the returned tracking id. */
  class Form {
    var formData: FormData
    var isSubmitting: bool
    var error: Option<string>
    var success: Option<string>

    constructor ()
      ensures formData == EmptyForm && !isSubmitting && error == None && success == None
    {
      formData, isSubmitting, error, success := EmptyForm, false, None, None;
    }

    /** A text input changed. */
    method HandleChange(field: FormField, value: string)
      modifies this
      ensures formData == SetField(old(formData), field, value)
      ensures isSubmitting == old(isSubmitting) && error == old(error) && success == old(success)
    {
      formData := SetField(formData, field, value);
    }

    /** The file input changed; a null file list leaves the form alone. */
    method HandleFileChange(files: Option<seq<Attachment>>)
      modifies this
      ensures files.Some? ==> formData == old(formData).(attachments := files.value)
      ensures files.None? ==> formData == old(formData)
      ensures isSubmitting == old(isSubmitting) && error == old(error) && success == old(success)
    {
      if files.Some? {
        formData := formData.(attachments := files.value);
      }
    }

    /** Submit: post the body built from the current form. On success store the
        tracking id and clear every field; on failure keep the entered input and
        store the message. `isSubmitting` is false afterwards in both cases. */
    method HandleSubmit(result: Response<string>) returns (body: Payload)
      modifies this
      ensures body == BuildPayload(old(formData))
      ensures formData == if result.Ok? then EmptyForm else old(formData)
      ensures success == if result.Ok? then Some(result.body) else old(success)
      ensures result.Ok? ==> error == None
      ensures result.NotOk? ==> error == Some("Failed to submit complaint")
      ensures result.Thrown? ==> error == Some(CaughtMessage(result.message))
      ensures !isSubmitting
    {
      isSubmitting := true;
      error := None;
      body := BuildPayload(formData);
      match result {
        case Ok(trackingId) =>
          success := Some(trackingId);
          formData := EmptyForm;
        case NotOk =>
          error := Some("Failed to submit complaint");
        case Thrown(message) =>
          error := Some(CaughtMessage(message));
      }
      isSubmitting := false;
    }

    /** "Return to Home" on the success panel forgets the tracking id. */
    method ReturnHome()
      modifies this
      ensures success == None
      ensures formData == old(formData) && isSubmitting == old(isSubmitting) && error == old(error)
    {
      success := None;
    }
  }
}
