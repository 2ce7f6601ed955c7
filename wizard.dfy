/** The public complaint form: a four-step wizard (identity, problem,
    suggestion, contacts and rating) gated by a bot-verification token, with a
    terminal success screen. */
module ComplaintWizard {
  import opened Common
  import opened JsStrings

  /** The form values as the form library holds them. `None` is a field that
      was never given a value (`undefined`). */
  datatype FormData = FormData(
    fullName: Option<string>,
    branch: Option<string>,
    problem: Option<string>,
    solution: Option<string>,
    contact: Option<string>,
    rating: Option<int>)

  const EmptyForm := FormData(None, None, None, None, None, None)

  datatype Field = FullName | BranchName | Problem | Solution | Contact | Rating

  /** The text fields a user types into or picks from a list. */
  predicate IsTextField(f: Field) {
    f != Rating
  }

  // The complaint schema, one predicate per field. Lengths are JavaScript
  // lengths (UTF-16 code units).

  predicate FullNameValid(v: Option<string>) {
    v.Some? && 2 <= JsLength(v.value) <= 100
  }

  predicate BranchValid(v: Option<string>) {
    v.Some? && JsLength(v.value) >= 1
  }

  predicate ProblemValid(v: Option<string>) {
    v.Some? && 10 <= JsLength(v.value) <= 1000
  }

  predicate SolutionValid(v: Option<string>) {
    v.None? || JsLength(v.value) <= 1000
  }

  predicate RatingValid(v: Option<int>) {
    v.None? || 1 <= v.value <= 5
  }

  predicate FieldValid(d: FormData, f: Field) {
    match f
    case FullName => FullNameValid(d.fullName)
    case BranchName => BranchValid(d.branch)
    case Problem => ProblemValid(d.problem)
    case Solution => SolutionValid(d.solution)
    case Contact => true
    case Rating => RatingValid(d.rating)
  }

  /** Validation of a list of fields, as the form library's `trigger` does it:
      the list passes when each of its fields passes (so an empty list passes). */
  function ValidateFields(d: FormData, fs: seq<Field>): (ok: bool)
    ensures ok <==> forall i :: 0 <= i < |fs| ==> FieldValid(d, fs[i])
  {
    if fs == [] then true else FieldValid(d, fs[0]) && ValidateFields(d, fs[1..])
  }

  const AllFields := [FullName, BranchName, Problem, Solution, Contact, Rating]

  /** The whole schema, checked before a submission reaches the submit handler. */
  predicate SchemaValid(d: FormData) {
    ValidateFields(d, AllFields)
  }

  /** The schema holds exactly when every field constraint holds; the contact
      string is unconstrained. */
  lemma SchemaValidIff(d: FormData)
    ensures SchemaValid(d) <==>
      FullNameValid(d.fullName) && BranchValid(d.branch) && ProblemValid(d.problem)
      && SolutionValid(d.solution) && RatingValid(d.rating)
  {
    assert FieldValid(d, AllFields[0]) && FieldValid(d, AllFields[1]) && FieldValid(d, AllFields[2])
           && FieldValid(d, AllFields[3]) && FieldValid(d, AllFields[5])
      <==> FullNameValid(d.fullName) && BranchValid(d.branch) && ProblemValid(d.problem)
           && SolutionValid(d.solution) && RatingValid(d.rating);
  }

  /** The fields that "next" checks on each step: identity on step 1, the
      problem on step 2, nothing on the others. */
  function FieldsToValidate(step: int): seq<Field> {
    if step == 1 then [FullName, BranchName]
    else if step == 2 then [Problem]
    else []
  }

  predicate StepValid(d: FormData, step: int) {
    ValidateFields(d, FieldsToValidate(step))
  }

  /** "Next" is blocked on step 1 exactly when the name is shorter than 2 or
      longer than 100, or no branch is chosen; on step 2 exactly when the
      problem is shorter than 10 or longer than 1000; never on step 3. */
  lemma StepGate(d: FormData, step: int)
    ensures step == 1 ==> (StepValid(d, step) <==> FullNameValid(d.fullName) && BranchValid(d.branch))
    ensures step == 2 ==> (StepValid(d, step) <==> ProblemValid(d.problem))
    ensures step != 1 && step != 2 ==> StepValid(d, step)
  {
    if step == 1 {
      assert FieldsToValidate(step)[0] == FullName && FieldsToValidate(step)[1] == BranchName;
    } else if step == 2 {
      assert FieldsToValidate(step)[0] == Problem;
    }
  }

  /** The form after the user typed `text` into (or picked `text` for) field `f`. */
  function WithText(d: FormData, f: Field, text: string): FormData
    requires IsTextField(f)
  {
    match f
    case FullName => d.(fullName := Some(text))
    case BranchName => d.(branch := Some(text))
    case Problem => d.(problem := Some(text))
    case Solution => d.(solution := Some(text))
    case Contact => d.(contact := Some(text))
  }

  /** Editing one field changes the validity of that field only. */
  lemma EditTouchesOneField(d: FormData, f: Field, text: string, g: Field)
    requires IsTextField(f) && g != f
    ensures FieldValid(WithText(d, f, text), g) == FieldValid(d, g)
  {
  }

  /** The body posted to create a complaint: the validated form data plus the
      verification token. */
  datatype Payload = Payload(data: FormData, captchaToken: string)

  /** The submit button is enabled only when nothing is in flight and a
      verification token is present (a non-empty string). */
  predicate SubmitEnabled(isSubmitting: bool, token: Option<string>) {
    !isSubmitting && Truthy(token)
  }

  // Star rating display

  /** `watch("rating") || 0`: the saved rating, or 0 when absent or zero. */
  function CurrentRating(rating: Option<int>): int {
    if rating.Some? && rating.value != 0 then rating.value else 0
  }

  /** `hoveredStar || currentRating`: a non-zero hover wins over the saved rating. */
  function ShownRating(hovered: int, rating: Option<int>): int {
    if hovered != 0 then hovered else CurrentRating(rating)
  }

  predicate StarActive(hovered: int, rating: Option<int>, star: int) {
    ShownRating(hovered, rating) >= star
  }

  /** While a star is hovered, the highlighted stars depend on the hover
      only; otherwise they follow the saved rating. */
  lemma HoverOverridesRating(hovered: int, r1: Option<int>, r2: Option<int>, star: int)
    ensures hovered != 0 ==> (StarActive(hovered, r1, star) <==> StarActive(hovered, r2, star))
    ensures hovered != 0 ==> (StarActive(hovered, r1, star) <==> star <= hovered)
    ensures hovered == 0 && r1.Some? ==> (StarActive(hovered, r1, star) <==> star <= r1.value)
  {
  }

  /** How many of the stars 1..n are highlighted. */
  function ActiveStars(hovered: int, rating: Option<int>, n: nat): nat {
    if n == 0 then 0
    else ActiveStars(hovered, rating, n - 1) + (if StarActive(hovered, rating, n) then 1 else 0)
  }

  /** The highlighted stars are exactly stars 1..k with k the shown rating
      (clamped to 0..n): a star row always lights a prefix. */
  lemma {:induction false} ActiveStarsCount(hovered: int, rating: Option<int>, n: nat)
    ensures var k := ShownRating(hovered, rating);
            ActiveStars(hovered, rating, n) == if k <= 0 then 0 else if k >= n then n else k
  {
    if n > 0 {
      ActiveStarsCount(hovered, rating, n - 1);
    }
  }

  // Step indicators (0-based index i shows step i + 1)

  predicate IndicatorActive(step: int, i: int) {
    step == i + 1
  }

  predicate IndicatorCompleted(step: int, i: int) {
    step > i + 1
  }

  /** At most one indicator is active, none is both active and completed, and
      on steps 1..4 the active one is indicator `step - 1` with all before it
      completed. */
  lemma IndicatorsConsistent(step: int, i: int, j: int)
    ensures IndicatorActive(step, i) && IndicatorActive(step, j) ==> i == j
    ensures !(IndicatorActive(step, i) && IndicatorCompleted(step, i))
    ensures 1 <= step <= 4 ==> IndicatorActive(step, step - 1)
    ensures IndicatorCompleted(step, i) <==> i < step - 1
  {
  }

  /** The wizard's screen state. The form library's internal state is reduced
      to the form values `form`. */
  class Wizard {
    var step: int
    var isSubmitting: bool
    var isSuccess: bool
    var hoveredStar: int
    var branches: seq<Branch>
    var branchesLoading: bool
    var captchaToken: Option<string>
    var form: FormData

    ghost predicate Valid()
      reads this
    {
      1 <= step <= 4 && 0 <= hoveredStar <= 5
    }

    constructor ()
      ensures Valid()
      ensures step == 1 && !isSubmitting && !isSuccess && hoveredStar == 0
      ensures branches == [] && branchesLoading
      ensures captchaToken == None && form == EmptyForm
    {
      step := 1;
      isSubmitting := false;
      isSuccess := false;
      hoveredStar := 0;
      branches := [];
      branchesLoading := true;
      captchaToken := None;
      form := EmptyForm;
    }

    /** The branch list fetched once on mount: loading ends either way, and a
        failed fetch leaves the list empty. */
    method FetchBranches(reply: Reply<seq<Branch>>)
      requires Valid()
      modifies this`branches, this`branchesLoading
      ensures Valid() && !branchesLoading
      ensures branches == if reply.Ok? then reply.body else []
    {
      if reply.Ok? {
        branches := reply.body;
      } else {
        branches := [];
      }
      branchesLoading := false;
    }

    /** Typing into a registered input or picking a branch from the list. */
    method EnterText(f: Field, text: string)
      requires Valid() && IsTextField(f)
      modifies this`form
      ensures Valid() && form == WithText(old(form), f, text)
    {
      form := WithText(form, f, text);
    }

    /** Clicking star `star` saves it as the rating. */
    method RateStar(star: int)
      requires Valid() && 1 <= star <= 5
      modifies this`form
      ensures Valid() && form == old(form).(rating := Some(star))
      ensures RatingValid(form.rating)
    {
      form := form.(rating := Some(star));
    }

    method HoverStar(star: int)
      requires Valid() && 1 <= star <= 5
      modifies this`hoveredStar
      ensures Valid() && hoveredStar == star
    {
      hoveredStar := star;
    }

    method LeaveStar()
      requires Valid()
      modifies this`hoveredStar
      ensures Valid() && hoveredStar == 0
    {
      hoveredStar := 0;
    }

    /** The verification widget reports a new token, or null when it expires. */
    method SetCaptchaToken(token: Option<string>)
      requires Valid()
      modifies this`captchaToken
      ensures Valid() && captchaToken == token
    {
      captchaToken := token;
    }

    /** "Next" (offered below step 4): advances by exactly one step when the
        fields of the current step are valid, and otherwise stays. */
    method NextStep() returns (advanced: bool)
      requires Valid() && !isSuccess && step < 4
      modifies this`step
      ensures Valid()
      ensures advanced == StepValid(form, old(step))
      ensures step == if advanced then old(step) + 1 else old(step)
    {
      var fields := FieldsToValidate(step);
      advanced := ValidateFields(form, fields);
      if advanced {
        step := step + 1;
      }
    }

    /** "Back" (offered above step 1): one step down, with no validation. */
    method PrevStep()
      requires Valid() && !isSuccess && step > 1
      modifies this`step
      ensures Valid() && step == old(step) - 1
    {
      step := step - 1;
    }

    /** A submission up to the point where the request is sent. The whole
        schema is checked first; with a valid form but no token the user is
        alerted and nothing is posted; otherwise the form data plus the token
        is posted and the wizard is marked as submitting. The submit button
        is disabled while a post is in flight, but the handler itself has no
        such guard: "back" stays enabled, and Enter in the name field of step 1
        submits the form, so a second post can start before the first settles. */
    method BeginSubmit() returns (request: Option<Payload>, alerted: bool)
      requires Valid() && !isSuccess
      modifies this`isSubmitting
      ensures Valid()
      ensures request.Some? <==> SchemaValid(form) && Truthy(captchaToken)
      ensures request.Some? ==> request.value == Payload(form, captchaToken.value)
      ensures alerted <==> SchemaValid(form) && !Truthy(captchaToken)
      ensures request.Some? ==> isSubmitting
      ensures request.None? ==> isSubmitting == old(isSubmitting)
      ensures SubmitEnabled(old(isSubmitting), captchaToken) ==> (request.Some? <==> SchemaValid(form))
    {
      request, alerted := None, false;
      if !SchemaValid(form) {
        return;
      }
      if !Truthy(captchaToken) {
        alerted := true;
        return;
      }
      isSubmitting := true;
      request := Some(Payload(form, captchaToken.value));
    }

    /** A posted request settles: success shows the success screen; failure
        alerts and keeps the step, the form and the token. Either way the
        wizard is no longer submitting, even when another post is still in
        flight, and a success screen already shown stays. */
    method FinishSubmit(reply: Reply<()>) returns (alerted: bool)
      requires Valid()
      modifies this`isSubmitting, this`isSuccess
      ensures Valid() && !isSubmitting
      ensures isSuccess <==> old(isSuccess) || reply.Ok?
      ensures alerted <==> reply.Failed?
    {
      alerted := reply.Failed?;
      if reply.Ok? {
        isSuccess := true;
      }
      isSubmitting := false;
    }

    /** "Back to start" on the success screen: clears everything the user
        entered and returns to step 1. */
    method Reset()
      requires Valid() && isSuccess
      modifies this`isSuccess, this`step, this`form, this`captchaToken
      ensures Valid()
      ensures !isSuccess && step == 1 && form == EmptyForm && captchaToken == None
    {
      isSuccess := false;
      step := 1;
      form := EmptyForm;
      captchaToken := None;
    }
  }
}
