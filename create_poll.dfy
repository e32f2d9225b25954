/**
 * The poll-creation wizard (src/components/create-poll.tsx): three steps
 * (event details, options, user details) whose form payloads accumulate in
 * a draft; the last step's submission creates the poll remotely. The draft
 * is held twice, in memory and in session storage, and every write goes to
 * both.
 */
module CreatePoll {
  import opened Wrappers
  import opened PollDetailsForm

  datatype StepName = EventDetails | Options | UserDetails

  /** `steps`: the fixed order of the wizard. */
  const Steps: seq<StepName> := [EventDetails, Options, UserDetails]

  /** `steps.length - 1`, the index of the step whose submission creates the poll. */
  const LastStep: int := |Steps| - 1

  predicate InRange(index: int)
  {
    0 <= index < |Steps|
  }

  /** The wizard has three distinct steps, and the last one is at index 2. */
  lemma StepOrder()
    ensures |Steps| == 3 && LastStep == 2
    ensures Steps[0] == EventDetails && Steps[1] == Options && Steps[2] == UserDetails
    ensures forall i, j :: 0 <= i < j < |Steps| ==> Steps[i] != Steps[j]
  {
  }

  datatype View = Week | Month

  /**
   * One proposed date or time slot as the options form builds it; its
   * structure, and its wire encoding, belong to the date-time utilities.
   */
  datatype DateOption = DateOption(descriptor: string)

  type EncodedOption = string

  /** The payload of the event-details step; every field may be undefined. */
  datatype PollDetailsData = PollDetailsData(
    title: Option<string>,
    location: Option<string>,
    description: Option<string>,
    maxVotes: Option<NumberValue>)

  /** The payload of the options step. */
  datatype PollOptionsData = PollOptionsData(
    view: Option<View>,
    timeZone: Option<string>,
    options: Option<seq<DateOption>>)

  /** The payload of the user-details step. */
  datatype UserDetailsData = UserDetailsData(name: Option<string>, contact: Option<string>)

  /** What a step's form hands to `handleSubmit` and `handleChange`. */
  datatype StepData =
    | Details(details: PollDetailsData)
    | PollOptions(pollOptions: PollOptionsData)
    | User(user: UserDetailsData)

  /**
   * `NewEventData`: the step index and the payload stored under each step's
   * name; a name that is absent from `payloads` is undefined.
   */
  datatype Draft = Draft(currentStep: int, payloads: map<StepName, StepData>)

  /** `initialNewEventData`: step 0 and nothing else. */
  const InitialNewEventData: Draft := Draft(0, map[])

  /** The reset draft is at the first step and holds no payload under any step name. */
  lemma InitialNewEventDataIsEmpty()
    ensures InitialNewEventData.currentStep == 0 && InRange(InitialNewEventData.currentStep)
    ensures forall name: StepName :: PayloadAt(InitialNewEventData, name) == None
  {
  }

  function PayloadAt(d: Draft, name: StepName): Option<StepData>
  {
    if name in d.payloads then Some(d.payloads[name]) else None
  }

  const NoDetails := PollDetailsData(None, None, None, None)
  const NoOptions := PollOptionsData(None, None, None)
  const NoUser := UserDetailsData(None, None)

  /** `formData?.eventDetails`, read field by field: a missing payload reads as all-undefined. */
  function DetailsOf(d: Draft): PollDetailsData
  {
    match PayloadAt(d, EventDetails)
    case Some(Details(e)) => e
    case _ => NoDetails
  }

  /** `formData?.options`, read field by field. */
  function OptionsOf(d: Draft): PollOptionsData
  {
    match PayloadAt(d, Options)
    case Some(PollOptions(o)) => o
    case _ => NoOptions
  }

  /** `formData?.userDetails`, read field by field. */
  function UserOf(d: Draft): UserDetailsData
  {
    match PayloadAt(d, UserDetails)
    case Some(User(u)) => u
    case _ => NoUser
  }

  /** The props the page is mounted with (seed values from the URL). */
  datatype PageProps = PageProps(
    title: Option<string>,
    location: Option<string>,
    description: Option<string>,
    maxVotes: Option<NumberValue>,
    view: Option<View>)

  datatype SessionUser = SessionUser(name: string, email: string, isGuest: bool)

  /**
   * The default draft of the session storage slot: the props as event
   * details, the view as options, and the signed-in user's name and email
   * as user details unless the user is a guest.
   */
  function InitialDraft(props: PageProps, user: Option<SessionUser>): (d: Draft)
    ensures d.currentStep == 0
    ensures DetailsOf(d) == PollDetailsData(props.title, props.location, props.description, props.maxVotes)
    ensures OptionsOf(d) == PollOptionsData(props.view, None, None)
    ensures PayloadAt(d, UserDetails).Some? <==> user.Some? && !user.value.isGuest
    ensures user.Some? && !user.value.isGuest ==>
              UserOf(d) == UserDetailsData(Some(user.value.name), Some(user.value.email))
  {
    var base := map[
      EventDetails := Details(PollDetailsData(props.title, props.location, props.description, props.maxVotes)),
      Options := PollOptions(PollOptionsData(props.view, None, None))];
    match user
    case Some(u) =>
      if !u.isGuest then Draft(0, base[UserDetails := User(UserDetailsData(Some(u.name), Some(u.email)))])
      else Draft(0, base)
    case None => Draft(0, base)
  }

  /** `{...d, currentStep: step, [name]: data}`: the object spread every transition uses. */
  function Spread(d: Draft, step: int, name: StepName, data: StepData): (r: Draft)
    ensures r.currentStep == step
    ensures PayloadAt(r, name) == Some(data)
    ensures forall other :: other != name ==> PayloadAt(r, other) == PayloadAt(d, other)
  {
    Draft(step, d.payloads[name := data])
  }

  /**
   * The draft `handleSubmit` writes on a step before the last: the data
   * replaces the current step's payload and the wizard moves one step on.
   */
  function Advanced(d: Draft, data: StepData): (r: Draft)
    requires 0 <= d.currentStep < LastStep
    ensures r.currentStep == d.currentStep + 1 && InRange(r.currentStep)
    ensures PayloadAt(r, Steps[d.currentStep]) == Some(data)
    ensures forall name :: name != Steps[d.currentStep] ==> PayloadAt(r, name) == PayloadAt(d, name)
  {
    Spread(d, d.currentStep + 1, Steps[d.currentStep], data)
  }

  /**
   * The draft `handleChange` writes: the data replaces (does not merge into)
   * the current step's payload and the step stays where it is.
   */
  function Changed(d: Draft, data: StepData): (r: Draft)
    requires InRange(d.currentStep)
    ensures r.currentStep == d.currentStep
    ensures PayloadAt(r, Steps[d.currentStep]) == Some(data)
    ensures forall name :: name != Steps[d.currentStep] ==> PayloadAt(r, name) == PayloadAt(d, name)
  {
    Spread(d, d.currentStep, Steps[d.currentStep], data)
  }

  /**
   * The draft the Back button writes: the persisted draft `p` with the step
   * one below the in-memory index `index`.
   */
  function Retreated(p: Draft, index: int): (r: Draft)
    requires 0 < index < |Steps|
    ensures r.currentStep == index - 1 && InRange(r.currentStep)
    ensures forall name :: PayloadAt(r, name) == PayloadAt(p, name)
  {
    p.(currentStep := index - 1)
  }

  /** Back after an advance returns to the step, keeping what the advance stored. */
  lemma BackUndoesAdvanceStep(d: Draft, data: StepData)
    requires 0 <= d.currentStep < LastStep
    ensures Retreated(Advanced(d, data), d.currentStep + 1).currentStep == d.currentStep
    ensures Retreated(Advanced(d, data), d.currentStep + 1) == Changed(d, data)
  {
  }

  /**
   * The in-memory draft after `handleSubmit(data)`: advanced before the
   * last step, untouched on the last step, whose submission goes to the
   * server instead.
   */
  function AfterSubmit(d: Draft, data: StepData): (r: Draft)
    requires InRange(d.currentStep)
    ensures InRange(r.currentStep)
    ensures d.currentStep == LastStep ==> r == d
  {
    if d.currentStep < LastStep then Advanced(d, data) else d
  }

  /** The draft after one `handleSubmit` per element of `ds`, in order. */
  function AfterSubmits(d: Draft, ds: seq<StepData>): (r: Draft)
    requires InRange(d.currentStep)
    ensures InRange(r.currentStep)
    decreases |ds|
  {
    if ds == [] then d else AfterSubmits(AfterSubmit(d, ds[0]), ds[1..])
  }

  function Min(a: int, b: int): int
  {
    if a <= b then a else b
  }

  /** `n` submissions move the wizard `n` steps on, but never past the last step. */
  lemma {:induction false} StepAfterSubmits(d: Draft, ds: seq<StepData>)
    requires InRange(d.currentStep)
    ensures AfterSubmits(d, ds).currentStep == Min(d.currentStep + |ds|, LastStep)
    decreases |ds|
  {
    if ds != [] {
      StepAfterSubmits(AfterSubmit(d, ds[0]), ds[1..]);
    }
  }

  /**
   * After a run of submissions, the step at index `k` holds the data
   * submitted on it if the run passed through it before the last step, and
   * its old payload otherwise; the last step's data is never stored.
   */
  lemma {:induction false} PayloadsAfterSubmits(d: Draft, ds: seq<StepData>, k: int)
    requires InRange(d.currentStep) && InRange(k)
    ensures d.currentStep <= k < Min(d.currentStep + |ds|, LastStep) ==>
              PayloadAt(AfterSubmits(d, ds), Steps[k]) == Some(ds[k - d.currentStep])
    ensures !(d.currentStep <= k < Min(d.currentStep + |ds|, LastStep)) ==>
              PayloadAt(AfterSubmits(d, ds), Steps[k]) == PayloadAt(d, Steps[k])
    decreases |ds|
  {
    if ds != [] {
      var next := AfterSubmit(d, ds[0]);
      PayloadsAfterSubmits(next, ds[1..], k);
      if d.currentStep < LastStep && k != d.currentStep {
        assert Steps[k] != Steps[d.currentStep];
      }
    }
  }

  /** The error `required` throws: "Required value is missing". */
  datatype CreateError = RequiredValueMissing

  /** `required` on a string: `!v` holds for undefined and for the empty string. */
  function RequiredText(v: Option<string>): (r: Result<string, CreateError>)
    ensures r.Success? <==> v.Some? && v.value != ""
    ensures r.Success? ==> r.value == v.value
  {
    match v
    case Some(s) => if s == "" then Failure(RequiredValueMissing) else Success(s)
    case None => Failure(RequiredValueMissing)
  }

  /** `required` on an array: an array is never falsy, so only undefined is missing. */
  function RequiredList<T>(v: Option<seq<T>>): (r: Result<seq<T>, CreateError>)
    ensures r.Success? <==> v.Some?
    ensures r.Success? ==> r.value == v.value
  {
    match v
    case Some(s) => Success(s)
    case None => Failure(RequiredValueMissing)
  }

  /** The input of the remote `polls.create` call. */
  datatype CreatePollInput = CreatePollInput(
    title: string,
    pollType: string,
    location: Option<string>,
    description: Option<string>,
    maxVotes: Option<NumberValue>,
    userName: string,
    userEmail: string,
    timeZone: Option<string>,
    options: seq<EncodedOption>)

  /**
   * The request the last step sends, read from the draft (not from the
   * submitted data): title first, then name, contact and options, each
   * through `required`; the options through the encoding `encode`.
   */
  function BuildRequest(d: Draft, encode: DateOption -> EncodedOption): (r: Result<CreatePollInput, CreateError>)
    ensures r.Success? <==>
              && DetailsOf(d).title.Some? && DetailsOf(d).title.value != ""
              && UserOf(d).name.Some? && UserOf(d).name.value != ""
              && UserOf(d).contact.Some? && UserOf(d).contact.value != ""
              && OptionsOf(d).options.Some?
    ensures r.Success? ==>
              && r.value.title == DetailsOf(d).title.value
              && r.value.pollType == "date"
              && r.value.location == DetailsOf(d).location
              && r.value.description == DetailsOf(d).description
              && r.value.maxVotes == DetailsOf(d).maxVotes
              && r.value.userName == UserOf(d).name.value
              && r.value.userEmail == UserOf(d).contact.value
              && r.value.timeZone == OptionsOf(d).timeZone
              && |r.value.options| == |OptionsOf(d).options.value|
              && forall i :: 0 <= i < |r.value.options| ==>
                   r.value.options[i] == encode(OptionsOf(d).options.value[i])
  {
    var details, opts, user := DetailsOf(d), OptionsOf(d), UserOf(d);
    match RequiredText(details.title)
    case Failure(e) => Failure(e)
    case Success(title) =>
      match RequiredText(user.name)
      case Failure(e) => Failure(e)
      case Success(name) =>
        match RequiredText(user.contact)
        case Failure(e) => Failure(e)
        case Success(email) =>
          match RequiredList(opts.options)
          case Failure(e) => Failure(e)
          case Success(list) =>
            Success(CreatePollInput(
              title, "date", details.location, details.description, details.maxVotes,
              name, email, opts.timeZone,
              seq(|list|, i requires 0 <= i < |list| => encode(list[i]))))
  }

  /** What `handleSubmit` did. */
  datatype SubmitOutcome =
    | StepAdvanced
    | CreateRequested(input: CreatePollInput)
    | Rejected(error: CreateError)

  /** How the remote `polls.create` call settled. */
  datatype CreateOutcome = Created(urlId: string) | CreateFailed

  /**
   * The wizard page: the in-memory draft, its copy in session storage, the
   * flag set once a redirect has begun, and the loading flag of the
   * `polls.create` mutation.
   */
  class CreatePollPage {
    var formData: Draft
    var persistedFormData: Draft
    var isRedirecting: bool
    var isLoading: bool

    /**
     * Both copies hold a valid step index, and until the redirect begins
     * they are the same draft.
     */
    ghost predicate Valid()
      reads this
    {
      && InRange(formData.currentStep)
      && InRange(persistedFormData.currentStep)
      && (!isRedirecting ==> persistedFormData == formData)
    }

    /** `isBusy`. */
    function IsBusy(): (busy: bool)
      reads this
      ensures busy <==> isRedirecting || isLoading
      ensures Valid() && !busy ==> persistedFormData == formData
    {
      isRedirecting || isLoading
    }

    /** The Back button is rendered only past the first step. */
    function BackOffered(): (offered: bool)
      reads this
      ensures offered <==> formData.currentStep > 0
      ensures Valid() ==> (offered <==> InRange(formData.currentStep - 1))
    {
      formData.currentStep > 0
    }

    /**
     * Mounting the page: the session storage slot yields the stored draft,
     * or the default built from the props and the session user; the
     * in-memory copy starts equal to it.
     */
    constructor (stored: Option<Draft>, props: PageProps, user: Option<SessionUser>)
      requires stored.Some? ==> InRange(stored.value.currentStep)
      ensures Valid()
      ensures persistedFormData == (if stored.Some? then stored.value else InitialDraft(props, user))
      ensures formData == persistedFormData
      ensures !isRedirecting && !isLoading
    {
      var d := if stored.Some? then stored.value else InitialDraft(props, user);
      formData := d;
      persistedFormData := d;
      isRedirecting := false;
      isLoading := false;
    }

    /** `setFormData`: the same draft to both copies. */
    method SetFormData(d: Draft)
      requires InRange(d.currentStep)
      modifies this
      ensures formData == d && persistedFormData == d
      ensures isRedirecting == old(isRedirecting) && isLoading == old(isLoading)
      ensures Valid()
    {
      formData := d;
      persistedFormData := d;
    }

    /**
     * `handleSubmit(data)`. Before the last step the data is stored and the
     * wizard advances. On the last step the request is built from the
     * in-memory draft: if a required value is missing nothing changes and
     * the error is returned; otherwise the mutation starts loading.
     */
    method HandleSubmit(data: StepData, encode: DateOption -> EncodedOption) returns (r: SubmitOutcome)
      requires Valid()
      modifies this
      ensures Valid()
      ensures isRedirecting == old(isRedirecting)
      ensures old(formData.currentStep) < LastStep ==>
                && r == StepAdvanced
                && formData == Advanced(old(formData), data)
                && persistedFormData == formData
                && isLoading == old(isLoading)
      ensures old(formData.currentStep) == LastStep ==>
                && formData == old(formData)
                && persistedFormData == old(persistedFormData)
                && (BuildRequest(old(formData), encode).Failure? ==>
                      r == Rejected(RequiredValueMissing) && isLoading == old(isLoading))
                && (BuildRequest(old(formData), encode).Success? ==>
                      r == CreateRequested(BuildRequest(old(formData), encode).value) && isLoading)
    {
      var index := formData.currentStep;
      if index < LastStep {
        SetFormData(Advanced(formData, data));
        r := StepAdvanced;
      } else {
        var request := BuildRequest(formData, encode);
        match request
        case Failure(e) =>
          r := Rejected(e);
        case Success(input) =>
          isLoading := true;
          r := CreateRequested(input);
      }
    }

    /** `handleChange(data)`: live sync of the current step's form. */
    method HandleChange(data: StepData)
      requires Valid()
      modifies this
      ensures Valid()
      ensures formData == Changed(old(formData), data)
      ensures persistedFormData == formData
      ensures isRedirecting == old(isRedirecting) && isLoading == old(isLoading)
    {
      SetFormData(Changed(formData, data));
    }

    /**
     * The Back button's `onClick`, which can fire only when the button is
     * rendered and not disabled. It spreads the persisted draft, which is
     * the in-memory one while nothing is busy, so every payload is kept.
     */
    method Back()
      requires Valid()
      requires BackOffered() && !IsBusy()
      modifies this
      ensures Valid()
      ensures formData.currentStep == old(formData.currentStep) - 1
      ensures forall name :: PayloadAt(formData, name) == PayloadAt(old(formData), name)
      ensures persistedFormData == formData
      ensures isRedirecting == old(isRedirecting) && isLoading == old(isLoading)
    {
      SetFormData(Retreated(persistedFormData, formData.currentStep));
    }

    /**
     * The mutation settles. On success (`onSuccess`) the redirect begins
     * and only the persisted draft is reset; the in-memory draft keeps
     * everything. On failure only the loading flag clears.
     */
    method OnCreateSettled(outcome: CreateOutcome) returns (createdUrlId: Option<string>)
      requires Valid() && isLoading
      modifies this
      ensures Valid()
      ensures !isLoading
      ensures formData == old(formData)
      ensures outcome.Created? ==>
                && isRedirecting
                && persistedFormData == InitialNewEventData
                && createdUrlId == Some(outcome.urlId)
      ensures outcome.CreateFailed? ==>
                && isRedirecting == old(isRedirecting)
                && persistedFormData == old(persistedFormData)
                && createdUrlId == None
    {
      isLoading := false;
      match outcome
      case Created(urlId) =>
        isRedirecting := true;
        persistedFormData := InitialNewEventData;
        createdUrlId := Some(urlId);
      case CreateFailed =>
        createdUrlId := None;
    }
  }

  /**
   * A whole session: details, options and user are filled in, the poll is
   * created, and the stored draft is reset while Back stays unavailable.
   */
  method TeamSyncScenario(encode: DateOption -> EncodedOption)
  {
    var page := new CreatePollPage(None, PageProps(None, None, None, None, None), None);
    assert page.formData.currentStep == 0;
    var r := page.HandleSubmit(Details(PollDetailsData(Some("Team Sync"), None, None, None)), encode);
    assert page.formData.currentStep == 1 && DetailsOf(page.formData).title == Some("Team Sync");
    var dates := [DateOption("2022-06-01"), DateOption("2022-06-02")];
    r := page.HandleSubmit(PollOptions(PollOptionsData(None, None, Some(dates))), encode);
    assert page.formData.currentStep == 2;
    page.HandleChange(User(UserDetailsData(Some("Ada"), Some(""))));
    r := page.HandleSubmit(User(UserDetailsData(Some("Ada"), Some(""))), encode);
    assert r == Rejected(RequiredValueMissing) && page.formData.currentStep == 2;
    page.HandleChange(User(UserDetailsData(Some("Ada"), Some("ada@example.com"))));
    r := page.HandleSubmit(User(UserDetailsData(Some("Ada"), Some("ada@example.com"))), encode);
    assert r.CreateRequested? && r.input.title == "Team Sync" && |r.input.options| == 2;
    assert page.IsBusy();
    var created := page.OnCreateSettled(Created("abc123"));
    assert created == Some("abc123");
    assert page.persistedFormData == InitialNewEventData && page.formData.currentStep == 2;
    assert page.IsBusy();
  }
}
