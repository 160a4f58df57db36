/**
 * The index page: it shows the greeting form until a greeting is submitted,
 * then the greeting, until it is reset.
 */
module IndexPage {
  import opened Wrappers
  import opened GreetingForm

  /** What the page renders. */
  datatype View = FormView | DisplayView(data: GreetingData)

  class Page {
    var greetingData: Option<GreetingData>
    var showForm: bool

    /** The form is hidden only when there is a greeting to display: what makes `greetingData!` safe. */
    predicate Valid()
      reads this
    {
      !showForm ==> greetingData.Some?
    }

    /** Lines 14-15. */
    constructor()
      ensures greetingData == None && showForm && Valid()
    {
      greetingData := None;
      showForm := true;
    }

    /** `handleGreetingSubmit`, lines 17-20. */
    method HandleGreetingSubmit(data: GreetingData)
      modifies this
      ensures greetingData == Some(data) && !showForm && Valid()
    {
      greetingData := Some(data);
      showForm := false;
    }

    /** `handleReset`, lines 22-25: back to the initial state, from any state. */
    method HandleReset()
      modifies this
      ensures greetingData == None && showForm && Valid()
    {
      greetingData := None;
      showForm := true;
    }

    /**
     * The form's submit wired to `handleGreetingSubmit` (line 31): the page
     * changes only when the form's guard lets the record through.
     */
    method SubmitForm(form: GreetingData)
      requires Valid()
      modifies this
      ensures Valid()
      ensures HandleSubmit(form).Some? ==> greetingData == Some(form) && !showForm
      ensures HandleSubmit(form).None? ==> greetingData == old(greetingData) && showForm == old(showForm)
    {
      var forwarded := HandleSubmit(form);
      if forwarded.Some? {
        HandleGreetingSubmit(forwarded.value);
      }
    }

    /** Lines 30-34: the form while `showForm` holds, otherwise the display of the stored greeting. */
    function Rendered(): (v: View)
      reads this
      requires Valid()
      ensures v == FormView <==> showForm
      ensures !showForm ==> v == DisplayView(greetingData.value)
    {
      if showForm then FormView else DisplayView(greetingData.value)
    }
  }
}
