/** The four-section lead-intake wizard that posts to the research backend
    (src/components/forms/ResearchForm.tsx): the field record, `canProceed`,
    the AI-service toggle, the Back/Continue moves that the rendered buttons
    allow, the request payload and the submit outcome mapping. */
module IntakeForm {
  import opened Optional
  import opened JsStrings

  /** The text inputs, one per `updateField` call site. */
  datatype TextField =
    | CompanyName | Industry | Website | Services | Usp
    | TargetCustomers | Challenges | DreamOutcome
    | Competitor1 | Competitor2 | Competitor3 | Differentiator
    | Email | Phone | Timeline | Budget

  datatype Fields = Fields(
    companyName: string, industry: string, website: string, services: string, usp: string,
    targetCustomers: string, challenges: string, dreamOutcome: string,
    competitor1: string, competitor2: string, competitor3: string, differentiator: string,
    aiServices: seq<string>, email: string, phone: string, timeline: string, budget: string)
  {
    function Get(k: TextField): string {
      match k
      case CompanyName => companyName
      case Industry => industry
      case Website => website
      case Services => services
      case Usp => usp
      case TargetCustomers => targetCustomers
      case Challenges => challenges
      case DreamOutcome => dreamOutcome
      case Competitor1 => competitor1
      case Competitor2 => competitor2
      case Competitor3 => competitor3
      case Differentiator => differentiator
      case Email => email
      case Phone => phone
      case Timeline => timeline
      case Budget => budget
    }

    /** `updateField(field, value)`: replaces exactly one field. */
    function Set(k: TextField, v: string): (r: Fields)
      ensures r.Get(k) == v
      ensures forall j :: j != k ==> r.Get(j) == Get(j)
      ensures r.aiServices == aiServices
    {
      match k
      case CompanyName => this.(companyName := v)
      case Industry => this.(industry := v)
      case Website => this.(website := v)
      case Services => this.(services := v)
      case Usp => this.(usp := v)
      case TargetCustomers => this.(targetCustomers := v)
      case Challenges => this.(challenges := v)
      case DreamOutcome => this.(dreamOutcome := v)
      case Competitor1 => this.(competitor1 := v)
      case Competitor2 => this.(competitor2 := v)
      case Competitor3 => this.(competitor3 := v)
      case Differentiator => this.(differentiator := v)
      case Email => this.(email := v)
      case Phone => this.(phone := v)
      case Timeline => this.(timeline := v)
      case Budget => this.(budget := v)
    }
  }

  const Initial := Fields("", "", "", "", "", "", "", "", "", "", "", "", [], "", "", "", "")

  /** The ids of the three service cards of section 4. */
  const ServiceIds: set<string> := {"voice-agent", "text-chatbot", "avatar-chatbot"}

  /** The section that renders the input for `k`. */
  function SectionOf(k: TextField): (s: int)
    ensures 1 <= s <= 4
  {
    match k
    case CompanyName | Industry | Website | Services | Usp => 1
    case TargetCustomers | Challenges | DreamOutcome => 2
    case Competitor1 | Competitor2 | Competitor3 | Differentiator => 3
    case Email | Phone | Timeline | Budget => 4
  }

  /** `canProceed`: JavaScript truthiness of the required values, nothing
      trimmed; an index outside 1..4 passes. */
  function CanProceed(f: Fields, section: int): bool {
    if section == 1 then f.companyName != "" && f.industry != "" && f.services != ""
    else if section == 2 then f.targetCustomers != ""
    else if section == 3 then f.competitor1 != ""
    else if section == 4 then f.email != "" && |f.aiServices| > 0
    else true
  }

  /** Editing an input of one section never changes another section's gate. */
  lemma GateIsLocal(f: Fields, k: TextField, v: string, s: int)
    requires SectionOf(k) != s
    ensures CanProceed(f.Set(k, v), s) == CanProceed(f, s)
  {
    match k
    case CompanyName =>
    case Industry =>
    case Website =>
    case Services =>
    case Usp =>
    case TargetCustomers =>
    case Challenges =>
    case DreamOutcome =>
    case Competitor1 =>
    case Competitor2 =>
    case Competitor3 =>
    case Differentiator =>
    case Email =>
    case Phone =>
    case Timeline =>
    case Budget =>
  }

  /** Section 3 needs the first competitor: the second and third alone do
      not open it. */
  lemma OnlyFirstCompetitorCounts(f: Fields)
    requires f.competitor1 == "" && f.competitor2 != "" && f.competitor3 != ""
    ensures !CanProceed(f, 3)
  {
  }

  /** Section 1 with the company and services but no industry stays shut;
      filling the industry opens it. */
  lemma SectionOneScenario()
    ensures !CanProceed(Initial.(companyName := "Acme", services := "widgets"), 1)
    ensures CanProceed(Initial.(companyName := "Acme", industry := "Healthcare", services := "widgets"), 1)
  {
  }

  predicate NoDuplicates(xs: seq<string>) {
    forall i, j :: 0 <= i < j < |xs| ==> xs[i] != xs[j]
  }

  /** The filter `x => x !== service`. */
  function OtherThan(service: string): string -> bool {
    x => x != service
  }

  /** `toggleAIService(service)` on the list: drops every occurrence when the
      service is present, appends it otherwise. */
  function ToggleService(current: seq<string>, service: string): (r: seq<string>)
    ensures service in r <==> service !in current
    ensures forall x :: x != service ==> (x in r <==> x in current)
    ensures service !in current ==> r == current + [service]
    ensures NoDuplicates(current) ==> NoDuplicates(r)
  {
    if service in current then
      var r := Filter(current, OtherThan(service));
      FilterKeepsNoDuplicates(current, OtherThan(service));
      r
    else
      current + [service]
  }

  /** Deselecting a service of a duplicate-free list removes it where it
      stands and keeps the others in order. */
  lemma ToggleRemoves(current: seq<string>, service: string, i: nat)
    requires NoDuplicates(current) && i < |current| && current[i] == service
    ensures ToggleService(current, service) == current[..i] + current[i + 1..]
  {
    var before, after := current[..i], current[i + 1..];
    assert current == before + [service] + after;
    assert service !in before by {
      forall k | 0 <= k < |before| ensures before[k] != service {
        assert before[k] == current[k];
      }
    }
    assert service !in after by {
      forall k | 0 <= k < |after| ensures after[k] != service {
        assert after[k] == current[i + 1 + k];
      }
    }
    FilterDropsOne(before, service, after);
  }

  /** Filtering out a value that occurs once drops just that occurrence. */
  lemma FilterDropsOne(before: seq<string>, service: string, after: seq<string>)
    requires service !in before && service !in after
    ensures Filter(before + [service] + after, OtherThan(service)) == before + after
  {
    var keep := OtherThan(service);
    var head := before + [service];
    assert Filter(head, keep) == before by {
      FilterConcat(before, [service], keep);
      FilterSingle(service, keep);
      KeepsAllOthers(before, service);
    }
    assert Filter(after, keep) == after by {
      KeepsAllOthers(after, service);
    }
    FilterConcat(head, after, keep);
  }

  lemma KeepsAllOthers(xs: seq<string>, service: string)
    requires service !in xs
    ensures Filter(xs, OtherThan(service)) == xs
  {
    forall k | 0 <= k < |xs| ensures OtherThan(service)(xs[k]) {
      assert xs[k] in xs;
    }
    FilterKeepsAll(xs, OtherThan(service));
  }

  lemma {:induction false} FilterKeepsNoDuplicates(xs: seq<string>, keep: string -> bool)
    ensures NoDuplicates(xs) ==> NoDuplicates(Filter(xs, keep))
  {
    if xs != [] && NoDuplicates(xs) {
      assert NoDuplicates(xs[1..]);
      FilterKeepsNoDuplicates(xs[1..], keep);
      assert xs[0] !in xs[1..];
    }
  }

  /** Toggling the same service twice restores the set of selected services;
      on a duplicate-free list that does not hold it, it restores the list. */
  lemma ToggleTwice(current: seq<string>, service: string)
    ensures forall x :: x in ToggleService(ToggleService(current, service), service) <==> x in current
    ensures service !in current ==> ToggleService(ToggleService(current, service), service) == current
  {
    if service !in current {
      var once := current + [service];
      FilterConcat(current, [service], OtherThan(service));
      FilterKeepsAll(current, OtherThan(service));
      assert Filter([service], OtherThan(service)) == [];
      assert ToggleService(once, service) == Filter(once, OtherThan(service));
    }
  }

  /** The JSON body posted to `/api/research/start`, with the backend's own
      key names. */
  datatype Payload = Payload(
    name: string, industry: string, website: string, services: string,
    target_customers: string, usp: string, competitors: seq<string>,
    challenges: string, email: string, phone: string, dream_outcome: string,
    differentiator: string, ai_services: seq<string>, timeline: string, budget: string)
  {
    /** The payload value that carries text input `k`; the three competitor
        inputs have none of their own (they go into `competitors`). */
    function Text(k: TextField): (r: Option<string>)
      ensures r.None? <==> IsCompetitor(k)
    {
      match k
      case CompanyName => Some(name)
      case Industry => Some(industry)
      case Website => Some(website)
      case Services => Some(services)
      case Usp => Some(usp)
      case TargetCustomers => Some(target_customers)
      case Challenges => Some(challenges)
      case DreamOutcome => Some(dream_outcome)
      case Competitor1 | Competitor2 | Competitor3 => None
      case Differentiator => Some(differentiator)
      case Email => Some(email)
      case Phone => Some(phone)
      case Timeline => Some(timeline)
      case Budget => Some(budget)
    }
  }

  predicate IsCompetitor(k: TextField) {
    k == Competitor1 || k == Competitor2 || k == Competitor3
  }

  predicate IsTruthy(s: string) {
    s != ""
  }

  /** `[competitor1, competitor2, competitor3].filter(Boolean)`: the non-empty
      names in order; a name of spaces is kept. */
  function Competitors(f: Fields): (r: seq<string>)
    ensures r == (if f.competitor1 != "" then [f.competitor1] else [])
               + (if f.competitor2 != "" then [f.competitor2] else [])
               + (if f.competitor3 != "" then [f.competitor3] else [])
  {
    var names := [f.competitor1, f.competitor2, f.competitor3];
    assert names == [f.competitor1] + [f.competitor2] + [f.competitor3];
    FilterConcat([f.competitor1] + [f.competitor2], [f.competitor3], IsTruthy);
    FilterConcat([f.competitor1], [f.competitor2], IsTruthy);
    FilterSingle(f.competitor1, IsTruthy);
    FilterSingle(f.competitor2, IsTruthy);
    FilterSingle(f.competitor3, IsTruthy);
    Filter(names, IsTruthy)
  }

  lemma CompetitorScenarios()
    ensures Competitors(Initial.(competitor1 := "Acme Inc")) == ["Acme Inc"]
    ensures Competitors(Initial.(competitor1 := " ", competitor3 := "Beta")) == [" ", "Beta"]
  {
    assert [" ", "", "Beta"][1..] == ["", "Beta"];
    assert ["Acme Inc", "", ""][1..] == ["", ""];
  }

  /** The payload: every text input other than a competitor passed through
      unchanged under its backend key, the competitors filtered, the
      selected services passed as they are. */
  function BuildPayload(f: Fields): (p: Payload)
    ensures forall k :: !IsCompetitor(k) ==> p.Text(k) == Some(f.Get(k))
    ensures p.competitors == Competitors(f)
    ensures p.ai_services == f.aiServices
  {
    Payload(f.companyName, f.industry, f.website, f.services, f.targetCustomers, f.usp,
            Competitors(f), f.challenges, f.email, f.phone, f.dreamOutcome,
            f.differentiator, f.aiServices, f.timeline, f.budget)
  }

  /** Editing one input changes the payload only where that input goes. */
  lemma PayloadEditIsLocal(f: Fields, k: TextField, v: string, j: TextField)
    requires j != k
    ensures BuildPayload(f.Set(k, v)).Text(j) == BuildPayload(f).Text(j)
  {
    var g := f.Set(k, v);
    if !IsCompetitor(j) {
      assert g.Get(j) == f.Get(j);
    }
  }

  /** How the POST ended: a 2xx response whose JSON body was read (its
      `job_id`, or `None` when the body has no such key and `undefined` is
      read), a response that is not ok, or a thrown value (an `Error` with its
      message, or something else). */
  datatype PostOutcome = Accepted(jobId: Option<string>) | NotOk | Threw(errorMessage: Option<string>)

  /** Whether `onSubmitSuccess` was called, and with what. */
  datatype Notification = NotCalled | Called(jobId: Option<string>)

  const RejectedMessage := "Failed to submit. Please try again."
  const FallbackMessage := "Something went wrong"

  /** The message `handleSubmit` shows for a failed POST. */
  function FailureMessage(outcome: PostOutcome): (m: string)
    requires !outcome.Accepted?
    ensures outcome == NotOk ==> m == RejectedMessage
    ensures outcome == Threw(None) ==> m == FallbackMessage
    ensures outcome.Threw? && outcome.errorMessage.Some? ==> m == outcome.errorMessage.value
  {
    match outcome
    case NotOk => RejectedMessage
    case Threw(Some(message)) => message
    case Threw(None) => FallbackMessage
  }

  class Wizard {
    var currentSection: int
    var form: Fields
    var isSubmitting: bool
    var error: Option<string>
    var submitted: bool

    /** The index stays in 1..4, every earlier section passes its gate, and
        the selected services are distinct card ids. */
    ghost predicate Valid()
      reads this
    {
      && 1 <= currentSection <= 4
      && (forall s :: 1 <= s < currentSection ==> CanProceed(form, s))
      && NoDuplicates(form.aiServices)
      && (forall x :: x in form.aiServices ==> x in ServiceIds)
    }

    constructor ()
      ensures Valid()
      ensures currentSection == 1 && form == Initial && !isSubmitting
      ensures error == None && !submitted
    {
      currentSection := 1;
      form := Initial;
      isSubmitting := false;
      error := None;
      submitted := false;
    }

    /** `updateField` from an input of the section on screen (the success
        screen replaces the wizard once submitted). */
    method UpdateField(k: TextField, v: string)
      requires Valid() && !submitted && SectionOf(k) == currentSection
      modifies this
      ensures Valid()
      ensures form == old(form).Set(k, v)
      ensures currentSection == old(currentSection) && isSubmitting == old(isSubmitting)
      ensures error == old(error) && submitted == old(submitted)
    {
      forall s | 1 <= s < currentSection
        ensures CanProceed(form.Set(k, v), s)
      {
        GateIsLocal(form, k, v, s);
      }
      form := form.Set(k, v);
    }

    /** A click on one of the service cards of section 4. */
    method ToggleAIService(service: string)
      requires Valid() && !submitted && currentSection == 4 && service in ServiceIds
      modifies this
      ensures Valid()
      ensures form == old(form).(aiServices := ToggleService(old(form.aiServices), service))
      ensures currentSection == old(currentSection) && isSubmitting == old(isSubmitting)
      ensures error == old(error) && submitted == old(submitted)
    {
      var selected := ToggleService(form.aiServices, service);
      assert forall x :: x in selected ==> x in form.aiServices || x == service;
      assert forall s :: 1 <= s < 4 ==> CanProceed(form.(aiServices := selected), s) == CanProceed(form, s);
      form := form.(aiServices := selected);
    }

    /** The Back button, rendered only above section 1. */
    method Back()
      requires Valid() && !submitted && currentSection > 1
      modifies this
      ensures Valid()
      ensures currentSection == old(currentSection) - 1
      ensures form == old(form) && isSubmitting == old(isSubmitting)
      ensures error == old(error) && submitted == old(submitted)
    {
      currentSection := currentSection - 1;
    }

    /** The Continue button, rendered below section 4 and enabled only when
        the current section passes its gate. */
    method Continue()
      requires Valid() && !submitted && currentSection < 4
      requires CanProceed(form, currentSection)
      modifies this
      ensures Valid()
      ensures currentSection == old(currentSection) + 1
      ensures form == old(form) && isSubmitting == old(isSubmitting)
      ensures error == old(error) && submitted == old(submitted)
    {
      currentSection := currentSection + 1;
    }

    /** The synchronous part of `handleSubmit`, behind the submit button of
        section 4 (enabled when the gate passes and nothing is in flight):
        the error is cleared and the payload is built. */
    method BeginSubmit() returns (payload: Payload)
      requires Valid() && !submitted && !isSubmitting
      requires currentSection == 4 && CanProceed(form, 4)
      modifies this
      ensures Valid()
      ensures isSubmitting && error == None
      ensures payload == BuildPayload(form)
      ensures form == old(form) && currentSection == old(currentSection) && submitted == old(submitted)
    {
      isSubmitting := true;
      error := None;
      payload := BuildPayload(form);
    }

    /** The rest of `handleSubmit`: an accepted POST marks the form submitted
        and asks for `onSubmitSuccess` to be called with the job id it
        read (possibly `undefined`); `Called` is that request, which does
        nothing when the optional prop is absent. Any failure records its
        message. The fields are never reset and `isSubmitting` ends false. */
    method FinishSubmit(outcome: PostOutcome) returns (notified: Notification)
      requires Valid() && isSubmitting
      modifies this
      ensures Valid() && !isSubmitting
      ensures form == old(form) && currentSection == old(currentSection)
      ensures outcome.Accepted? ==>
                submitted && error == old(error) && notified == Called(outcome.jobId)
      ensures !outcome.Accepted? ==>
                submitted == old(submitted) && error == Some(FailureMessage(outcome)) && notified == NotCalled
    {
      notified := NotCalled;
      if outcome.Accepted? {
        submitted := true;
        notified := Called(outcome.jobId);
      } else {
        error := Some(FailureMessage(outcome));
      }
      isSubmitting := false;
    }
  }
}
