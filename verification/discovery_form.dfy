/** The four-section "Deep Research Discovery" wizard that stores its answers
    in Supabase (src/components/ResearchForm.tsx): the field record, the
    per-section validation, the clamped section moves, the submission
    projection and the submit handshake with its status. */
module DiscoveryForm {
  import opened Optional
  import opened JsStrings

  /** The text inputs of the form, one per `name` attribute. */
  datatype TextField =
    | CompanyName | WebsiteUrl | PrimaryUsp | DreamOutcome | BrandArchetype
    | VoicePersona | ForbiddenPhrases | BridgeQuestion
    | Competitor1Name | Competitor1Website | Competitor2Name | Competitor2Website
    | Competitor3Name | Competitor3Website | CompetitorFriction
    | TechnicalConstraints | ContactName | ContactEmail | ContactPhone

  /** The form state. The two select inputs (brand archetype, voice persona)
      hold either "" or the value of one of their options. */
  datatype Fields = Fields(
    companyName: string, websiteUrl: string, primaryUsp: string,
    dreamOutcome: string, brandArchetype: string, proofAssets: seq<string>,
    voicePersona: string, forbiddenPhrases: string, bridgeQuestion: string,
    competitor1Name: string, competitor1Website: string,
    competitor2Name: string, competitor2Website: string,
    competitor3Name: string, competitor3Website: string,
    competitorFriction: string, technicalConstraints: string,
    contactName: string, contactEmail: string, contactPhone: string)
  {
    function Get(k: TextField): string {
      match k
      case CompanyName => companyName
      case WebsiteUrl => websiteUrl
      case PrimaryUsp => primaryUsp
      case DreamOutcome => dreamOutcome
      case BrandArchetype => brandArchetype
      case VoicePersona => voicePersona
      case ForbiddenPhrases => forbiddenPhrases
      case BridgeQuestion => bridgeQuestion
      case Competitor1Name => competitor1Name
      case Competitor1Website => competitor1Website
      case Competitor2Name => competitor2Name
      case Competitor2Website => competitor2Website
      case Competitor3Name => competitor3Name
      case Competitor3Website => competitor3Website
      case CompetitorFriction => competitorFriction
      case TechnicalConstraints => technicalConstraints
      case ContactName => contactName
      case ContactEmail => contactEmail
      case ContactPhone => contactPhone
    }

    /** `{ ...prev, [name]: value }`: replaces exactly one field. */
    function Set(k: TextField, v: string): (r: Fields)
      ensures r.Get(k) == v
      ensures forall j :: j != k ==> r.Get(j) == Get(j)
      ensures r.proofAssets == proofAssets
    {
      match k
      case CompanyName => this.(companyName := v)
      case WebsiteUrl => this.(websiteUrl := v)
      case PrimaryUsp => this.(primaryUsp := v)
      case DreamOutcome => this.(dreamOutcome := v)
      case BrandArchetype => this.(brandArchetype := v)
      case VoicePersona => this.(voicePersona := v)
      case ForbiddenPhrases => this.(forbiddenPhrases := v)
      case BridgeQuestion => this.(bridgeQuestion := v)
      case Competitor1Name => this.(competitor1Name := v)
      case Competitor1Website => this.(competitor1Website := v)
      case Competitor2Name => this.(competitor2Name := v)
      case Competitor2Website => this.(competitor2Website := v)
      case Competitor3Name => this.(competitor3Name := v)
      case Competitor3Website => this.(competitor3Website := v)
      case CompetitorFriction => this.(competitorFriction := v)
      case TechnicalConstraints => this.(technicalConstraints := v)
      case ContactName => this.(contactName := v)
      case ContactEmail => this.(contactEmail := v)
      case ContactPhone => this.(contactPhone := v)
    }
  }

  /** Every text field empty and three empty proof-asset slots. */
  const Initial := Fields("", "", "", "", "", ["", "", ""], "", "", "",
                          "", "", "", "", "", "", "", "", "", "", "")

  /** The section whose rendering holds the input for `k`. */
  function SectionOf(k: TextField): (s: int)
    ensures 1 <= s <= 4
  {
    match k
    case CompanyName | WebsiteUrl | PrimaryUsp | DreamOutcome | BrandArchetype => 1
    case VoicePersona | ForbiddenPhrases | BridgeQuestion => 2
    case Competitor1Name | Competitor1Website | Competitor2Name | Competitor2Website
       | Competitor3Name | Competitor3Website | CompetitorFriction => 3
    case TechnicalConstraints | ContactName | ContactEmail | ContactPhone => 4
  }

  /** The fields no section requires. */
  predicate IsOptionalField(k: TextField) {
    k in {WebsiteUrl, ForbiddenPhrases, Competitor2Name, Competitor2Website,
          Competitor3Name, Competitor3Website, TechnicalConstraints, ContactPhone}
  }

  /** `validateSection`: a required field passes when it is a non-empty string
      (JavaScript truthiness, nothing trimmed); any other index fails. */
  function ValidateSection(f: Fields, section: int): (valid: bool)
    ensures valid ==> 1 <= section <= 4
  {
    if section == 1 then
      f.companyName != "" && f.primaryUsp != "" && f.dreamOutcome != "" && f.brandArchetype != ""
    else if section == 2 then
      f.voicePersona != "" && f.bridgeQuestion != ""
    else if section == 3 then
      (f.competitor1Name != "" || f.competitor1Website != "") && f.competitorFriction != ""
    else if section == 4 then
      f.contactName != "" && f.contactEmail != ""
    else
      false
  }

  /** Editing a field of one section never changes whether another section
      validates, and an optional field never changes any section. */
  lemma ValidityIsLocal(f: Fields, k: TextField, v: string, s: int)
    requires SectionOf(k) != s || IsOptionalField(k)
    ensures ValidateSection(f.Set(k, v), s) == ValidateSection(f, s)
  {
    var g := f.Set(k, v);
    assert g.companyName == f.companyName || k == CompanyName;
    match k
    case CompanyName =>
    case WebsiteUrl =>
    case PrimaryUsp =>
    case DreamOutcome =>
    case BrandArchetype =>
    case VoicePersona =>
    case ForbiddenPhrases =>
    case BridgeQuestion =>
    case Competitor1Name =>
    case Competitor1Website =>
    case Competitor2Name =>
    case Competitor2Website =>
    case Competitor3Name =>
    case Competitor3Website =>
    case CompetitorFriction =>
    case TechnicalConstraints =>
    case ContactName =>
    case ContactEmail =>
    case ContactPhone =>
  }

  /** The proof assets never affect validation. */
  lemma ProofAssetsNeverMatter(f: Fields, assets: seq<string>, s: int)
    ensures ValidateSection(f.(proofAssets := assets), s) == ValidateSection(f, s)
  {
  }

  /** No index outside 1..4 validates. */
  lemma UnknownSectionInvalid(f: Fields, s: int)
    requires s < 1 || s > 4
    ensures !ValidateSection(f, s)
  {
  }

  /** A lone space fills a required field: validation does not trim. */
  lemma WhitespaceFillsRequiredFields()
    ensures var f := Initial.(companyName := " ", primaryUsp := " ", dreamOutcome := " ",
                              brandArchetype := " ");
            ValidateSection(f, 1)
  {
  }

  /** The submission row: the form with the proof assets filtered and the
      forbidden phrases turned into a list. */
  datatype Submission = Submission(
    companyName: string, websiteUrl: string, primaryUsp: string,
    dreamOutcome: string, brandArchetype: string, proofAssets: seq<string>,
    voicePersona: string, forbiddenPhrases: seq<string>, bridgeQuestion: string,
    competitor1Name: string, competitor1Website: string,
    competitor2Name: string, competitor2Website: string,
    competitor3Name: string, competitor3Website: string,
    competitorFriction: string, technicalConstraints: string,
    contactName: string, contactEmail: string, contactPhone: string)
  {
    /** The text column for `k`; the forbidden phrases are a list here. */
    function Text(k: TextField): string
      requires k != ForbiddenPhrases
    {
      match k
      case CompanyName => companyName
      case WebsiteUrl => websiteUrl
      case PrimaryUsp => primaryUsp
      case DreamOutcome => dreamOutcome
      case BrandArchetype => brandArchetype
      case VoicePersona => voicePersona
      case BridgeQuestion => bridgeQuestion
      case Competitor1Name => competitor1Name
      case Competitor1Website => competitor1Website
      case Competitor2Name => competitor2Name
      case Competitor2Website => competitor2Website
      case Competitor3Name => competitor3Name
      case Competitor3Website => competitor3Website
      case CompetitorFriction => competitorFriction
      case TechnicalConstraints => technicalConstraints
      case ContactName => contactName
      case ContactEmail => contactEmail
      case ContactPhone => contactPhone
    }
  }

  predicate IsFilledUrl(url: string) {
    Trim(url) != ""
  }

  predicate IsNonEmpty(s: string) {
    s != ""
  }

  /** `proof_assets.filter(url => url.trim() !== '')`: the entries, untrimmed
      and in order, that are not blank. */
  function KeptProofAssets(assets: seq<string>): (r: seq<string>)
    ensures forall x :: x in r <==> x in assets && !IsBlank(x)
  {
    assert forall x :: IsFilledUrl(x) <==> !IsBlank(x) by {
      forall x ensures IsFilledUrl(x) <==> !IsBlank(x) { TrimEmptyIffBlank(x); }
    }
    Filter(assets, IsFilledUrl)
  }

  /** The filter keeps order and repeats: it works entry by entry... */
  lemma KeptProofAssetsConcat(xs: seq<string>, ys: seq<string>)
    ensures KeptProofAssets(xs + ys) == KeptProofAssets(xs) + KeptProofAssets(ys)
  {
    FilterConcat(xs, ys, IsFilledUrl);
  }

  /** ...keeping an entry, untrimmed, exactly when it is not blank. */
  lemma KeptProofAsset(x: string)
    ensures KeptProofAssets([x]) == if IsBlank(x) then [] else [x]
  {
    FilterSingle(x, IsFilledUrl);
    TrimEmptyIffBlank(x);
  }

  /** Every trimmed piece is its own trim, and trimming adds no comma. */
  lemma TrimmedPieces(pieces: seq<string>)
    requires forall i :: 0 <= i < |pieces| ==> ',' !in pieces[i]
    ensures forall p :: p in TrimAll(pieces) ==> Trim(p) == p && ',' !in p
  {
    var trimmed := TrimAll(pieces);
    forall p | p in trimmed
      ensures Trim(p) == p && ',' !in p
    {
      var i :| 0 <= i < |trimmed| && trimmed[i] == p;
      TrimIdempotent(pieces[i]);
      TrimKeepsCharacters(pieces[i], ',');
    }
  }

  /** What a submitted phrase looks like: non-empty, trimmed, comma-free. */
  predicate IsPhrase(p: string) {
    p != "" && Trim(p) == p && ',' !in p
  }

  /** `s.split(',').map(p => p.trim()).filter(p => p !== '')`. */
  function Phrases(s: string): (r: seq<string>)
    ensures forall p :: p in r ==> IsPhrase(p)
  {
    TrimmedPieces(Split(s, ','));
    Filter(TrimAll(Split(s, ',')), IsNonEmpty)
  }

  /** Text without a comma gives its trimmed self as the one phrase, or no
      phrase when it is blank. */
  lemma PhrasesOfPiece(a: string)
    requires ',' !in a
    ensures Phrases(a) == if IsBlank(a) then [] else [Trim(a)]
  {
    var t := Trim(a);
    calc {
      Phrases(a);
      Filter(TrimAll(Split(a, ',')), IsNonEmpty);
      { SplitWithoutSeparator(a, ','); }
      Filter(TrimAll([a]), IsNonEmpty);
      { assert TrimAll([a]) == [t]; }
      Filter([t], IsNonEmpty);
      { FilterSingle(t, IsNonEmpty); }
      if t != "" then [t] else [];
      { TrimEmptyIffBlank(a); }
      if IsBlank(a) then [] else [t];
    }
  }

  /** Every piece before a comma contributes its phrases on its own, ahead of
      the phrases of the rest: nothing is lost or reordered. */
  lemma PhrasesAfterPiece(a: string, b: string)
    requires ',' !in a
    ensures Phrases(a + [','] + b) == Phrases(a) + Phrases(b)
  {
    SplitAfterPiece(a, ',', b);
    SplitWithoutSeparator(a, ',');
    TrimAllConcat([a], Split(b, ','));
    FilterConcat(TrimAll([a]), TrimAll(Split(b, ',')), IsNonEmpty);
  }

  /** An empty piece between two commas gives no phrase. */
  lemma EmptyPieceDropped(a: string, b: string)
    requires ',' !in a
    ensures Phrases(a + [','] + [','] + b) == Phrases(a) + Phrases(b)
  {
    var rest := [','] + b;
    assert a + [','] + [','] + b == a + [','] + rest;
    PhrasesAfterPiece(a, rest);
    LeadingCommaDropped(b);
  }

  /** A comma at the very start only closes an empty piece. */
  lemma LeadingCommaDropped(b: string)
    ensures Phrases([','] + b) == Phrases(b)
  {
    var s, pieces, empty := [','] + b, Split(b, ','), [];
    assert Split(s, ',') == [empty] + pieces by {
      assert s[0] == ',' && s[1..] == b;
    }
    assert TrimAll([empty]) == [empty] by {
      TrimEmptyIffBlank(empty);
    }
    calc {
      Phrases(s);
      Filter(TrimAll([empty] + pieces), IsNonEmpty);
      { TrimAllConcat([empty], pieces); }
      Filter([empty] + TrimAll(pieces), IsNonEmpty);
      { FilterConcat([empty], TrimAll(pieces), IsNonEmpty); FilterSingle(empty, IsNonEmpty); }
      Filter(TrimAll(pieces), IsNonEmpty);
    }
  }

  /** A visible character other than a comma, alone or between two spaces,
      is one phrase. */
  lemma OneCharacterPhrase(c: char)
    requires !IsWhitespace(c) && c != ','
    ensures Phrases([c]) == [[c]]
    ensures Phrases([' ', c, ' ']) == [[c]]
  {
    SingleCharacterPhrase(c);
    PaddedCharacterPhrase(c);
  }

  lemma SingleCharacterPhrase(c: char)
    requires !IsWhitespace(c) && c != ','
    ensures Phrases([c]) == [[c]]
  {
    assert !IsBlank([c]) && Trim([c]) == [c] by {
      TrimAroundCharacter(c);
    }
    PhrasesOfPiece([c]);
  }

  lemma PaddedCharacterPhrase(c: char)
    requires !IsWhitespace(c) && c != ','
    ensures Phrases([' ', c, ' ']) == [[c]]
  {
    var padded := [' ', c, ' '];
    assert !IsBlank(padded) && Trim(padded) == [c] by {
      TrimAroundCharacter(c);
    }
    assert ',' !in padded by {
      assert forall i :: 0 <= i < |padded| ==> padded[i] != ',';
    }
    PhrasesOfPiece(padded);
  }

  /** Empty pieces are dropped and the others trimmed, in order: for any two
      visible characters `x` and `y` other than a comma, `"x,, y "` gives
      `["x", "y"]`. */
  lemma PhrasesExample(x: char, y: char)
    requires !IsWhitespace(x) && !IsWhitespace(y) && x != ',' && y != ','
    ensures Phrases([x] + [','] + [','] + [' ', y, ' ']) == [[x], [y]]
  {
    OneCharacterPhrase(x);
    OneCharacterPhrase(y);
    EmptyPieceDropped([x], [' ', y, ' ']);
  }

  /** An empty entry gives no phrase. */
  lemma NoPhrasesInEmptyText()
    ensures Phrases("") == []
  {
    assert Split("", ',') == [""];
    assert TrimAll([""]) == [Trim("")];
  }

  /** Joining non-empty, trimmed, comma-free phrases with commas and reading
      them back gives the same list. */
  lemma PhrasesRoundTrip(ps: seq<string>)
    requires forall i :: 0 <= i < |ps| ==> IsPhrase(ps[i])
    ensures Phrases(Join(ps, ',')) == ps
  {
    if ps == [] {
      NoPhrasesInEmptyText();
    } else {
      var joined := Join(ps, ',');
      SplitJoin(ps, ',');
      TrimAllOfTrimmed(ps);
      FilterKeepsAll(ps, IsNonEmpty);
      calc {
        Phrases(joined);
        Filter(TrimAll(Split(joined, ',')), IsNonEmpty);
        Filter(TrimAll(ps), IsNonEmpty);
        ps;
      }
    }
  }

  /** The `submissionData` projection of the form into the row to insert. */
  function SubmissionData(f: Fields): Submission {
    Submission(f.companyName, f.websiteUrl, f.primaryUsp, f.dreamOutcome,
               f.brandArchetype, KeptProofAssets(f.proofAssets),
               f.voicePersona, Phrases(f.forbiddenPhrases), f.bridgeQuestion,
               f.competitor1Name, f.competitor1Website,
               f.competitor2Name, f.competitor2Website,
               f.competitor3Name, f.competitor3Website,
               f.competitorFriction, f.technicalConstraints,
               f.contactName, f.contactEmail, f.contactPhone)
  }

  /** The submission copies every text field but the phrases, keeps exactly
      the proof assets that are not blank (in order, by `KeptProofAssets`),
      and sends only well-formed phrases (split, in order, by `Phrases`). */
  lemma SubmissionFields(f: Fields)
    ensures forall k :: k != ForbiddenPhrases ==> SubmissionData(f).Text(k) == f.Get(k)
    ensures SubmissionData(f).proofAssets == KeptProofAssets(f.proofAssets)
    ensures SubmissionData(f).forbiddenPhrases == Phrases(f.forbiddenPhrases)
    ensures forall x :: x in SubmissionData(f).proofAssets <==> x in f.proofAssets && !IsBlank(x)
    ensures forall p :: p in SubmissionData(f).forbiddenPhrases ==> IsPhrase(p)
  {
    CopiedText(f, SubmissionData(f));
  }

  /** A record whose text fields equal the form's answers every text field
      but the phrases as the form does. */
  lemma CopiedText(f: Fields, r: Submission)
    requires r.companyName == f.companyName && r.websiteUrl == f.websiteUrl
    requires r.primaryUsp == f.primaryUsp && r.dreamOutcome == f.dreamOutcome
    requires r.brandArchetype == f.brandArchetype && r.voicePersona == f.voicePersona
    requires r.bridgeQuestion == f.bridgeQuestion
    requires r.competitor1Name == f.competitor1Name && r.competitor1Website == f.competitor1Website
    requires r.competitor2Name == f.competitor2Name && r.competitor2Website == f.competitor2Website
    requires r.competitor3Name == f.competitor3Name && r.competitor3Website == f.competitor3Website
    requires r.competitorFriction == f.competitorFriction
    requires r.technicalConstraints == f.technicalConstraints
    requires r.contactName == f.contactName && r.contactEmail == f.contactEmail
    requires r.contactPhone == f.contactPhone
    ensures forall k :: k != ForbiddenPhrases ==> r.Text(k) == f.Get(k)
  {
    forall k | k != ForbiddenPhrases ensures r.Text(k) == f.Get(k) {
      match k
      case CompanyName =>
      case WebsiteUrl =>
      case PrimaryUsp =>
      case DreamOutcome =>
      case BrandArchetype =>
      case VoicePersona =>
      case BridgeQuestion =>
      case Competitor1Name =>
      case Competitor1Website =>
      case Competitor2Name =>
      case Competitor2Website =>
      case Competitor3Name =>
      case Competitor3Website =>
      case CompetitorFriction =>
      case TechnicalConstraints =>
      case ContactName =>
      case ContactEmail =>
      case ContactPhone =>
    }
  }

  datatype SubmitStatus = Idle | Success | Error

  /** How a network call ended: it returned, or it threw. */
  datatype CallOutcome = Resolved | Threw

  /** The Supabase insert: an error, or the ids of the rows it returned. */
  datatype InsertResult = InsertFailed | Inserted(ids: seq<string>)

  /** Whether the try block of `handleSubmit` completes: the insert succeeds
      and, when a backend URL is configured, the first row exists and the
      trigger request does not throw (its HTTP status is not inspected). */
  predicate HandshakeSucceeds(insert: InsertResult, backendConfigured: bool, trigger: CallOutcome) {
    insert.Inserted? && (!backendConfigured || (|insert.ids| > 0 && trigger == Resolved))
  }

  /** What `handleSubmit` sends: nothing unless section 4 validates. */
  function SubmitAttempt(f: Fields): (sent: Option<Submission>)
    ensures sent.Some? <==> ValidateSection(f, 4)
    ensures sent.Some? ==> sent.value == SubmissionData(f)
  {
    if ValidateSection(f, 4) then Some(SubmissionData(f)) else None
  }

  class Wizard {
    var currentSection: int
    var form: Fields
    var isSubmitting: bool
    var status: SubmitStatus

    /** The index stays in 1..4, the three proof-asset slots stay, and every
        section before the current one validates: moving forward is gated on
        validity and only the current section's inputs can be edited. */
    ghost predicate Valid()
      reads this
    {
      && 1 <= currentSection <= 4
      && |form.proofAssets| == 3
      && forall s :: 1 <= s < currentSection ==> ValidateSection(form, s)
    }

    constructor ()
      ensures Valid()
      ensures currentSection == 1 && form == Initial && !isSubmitting && status == Idle
    {
      currentSection := 1;
      form := Initial;
      isSubmitting := false;
      status := Idle;
    }

    /** `handleChange` from an input of the section on screen. */
    method HandleChange(k: TextField, v: string)
      requires Valid() && SectionOf(k) == currentSection
      modifies this
      ensures Valid()
      ensures form == old(form).Set(k, v)
      ensures currentSection == old(currentSection) && isSubmitting == old(isSubmitting)
      ensures status == old(status)
    {
      forall s | 1 <= s < currentSection
        ensures ValidateSection(form.Set(k, v), s)
      {
        ValidityIsLocal(form, k, v, s);
      }
      form := form.Set(k, v);
    }

    /** `handleProofAssetChange(index, value)` from one of the three slots of
        section 1. */
    method HandleProofAssetChange(index: nat, value: string)
      requires Valid() && currentSection == 1 && index < |form.proofAssets|
      modifies this
      ensures Valid()
      ensures form == old(form).(proofAssets := old(form.proofAssets)[index := value])
      ensures currentSection == old(currentSection) && isSubmitting == old(isSubmitting)
      ensures status == old(status)
    {
      var assets := form.proofAssets;
      assets := assets[index := value];
      form := form.(proofAssets := assets);
    }

    /** `nextSection`: moves to `min(current + 1, 4)` when the current section
        validates; otherwise reports the block and stays. */
    method NextSection() returns (blocked: bool)
      requires Valid()
      modifies this
      ensures Valid()
      ensures blocked <==> !ValidateSection(form, old(currentSection))
      ensures currentSection == if blocked then old(currentSection)
                                else if old(currentSection) + 1 < 4 then old(currentSection) + 1 else 4
      ensures form == old(form) && isSubmitting == old(isSubmitting) && status == old(status)
    {
      blocked := !ValidateSection(form, currentSection);
      if !blocked {
        currentSection := if currentSection + 1 < 4 then currentSection + 1 else 4;
      }
    }

    /** `prevSection`: moves to `max(current - 1, 1)`, with no validation. */
    method PrevSection()
      requires Valid()
      modifies this
      ensures Valid()
      ensures currentSection == if old(currentSection) - 1 > 1 then old(currentSection) - 1 else 1
      ensures form == old(form) && isSubmitting == old(isSubmitting) && status == old(status)
    {
      currentSection := if currentSection - 1 > 1 then currentSection - 1 else 1;
    }

    /** The synchronous part of `handleSubmit`: when section 4 does not
        validate nothing is sent and nothing changes; otherwise the row to
        insert is built and the submission is in flight. Nothing guards
        against a second submission while one is in flight: only the
        section-4 button is disabled, and Enter in the one text input of
        section 2 submits the form too. */
    method BeginSubmit() returns (sent: Option<Submission>)
      requires Valid()
      modifies this`isSubmitting
      ensures Valid()
      ensures sent == SubmitAttempt(form)
      ensures isSubmitting == (old(isSubmitting) || sent.Some?)
      ensures form == old(form) && currentSection == old(currentSection) && status == old(status)
    {
      sent := SubmitAttempt(form);
      isSubmitting := isSubmitting || sent.Some?;
    }

    /** The rest of `handleSubmit`, once the insert (and the optional backend
        trigger) have settled. Success resets the form and the index; failure
        keeps both; `isSubmitting` ends false, even when another submission
        is still in flight. The returned id is the body of the trigger
        request, when one is sent. */
    method FinishSubmit(insert: InsertResult, backendConfigured: bool, trigger: CallOutcome)
      returns (triggered: Option<string>)
      requires Valid()
      modifies this
      ensures Valid() && !isSubmitting
      ensures HandshakeSucceeds(insert, backendConfigured, trigger) ==>
                status == Success && form == Initial && currentSection == 1
      ensures !HandshakeSucceeds(insert, backendConfigured, trigger) ==>
                status == Error && form == old(form) && currentSection == old(currentSection)
      ensures triggered == if insert.Inserted? && backendConfigured && |insert.ids| > 0
                           then Some(insert.ids[0]) else None
    {
      triggered := None;
      if insert.Inserted? && backendConfigured && |insert.ids| > 0 {
        triggered := Some(insert.ids[0]);
      }
      if HandshakeSucceeds(insert, backendConfigured, trigger) {
        status := Success;
        form := Initial;
        currentSection := 1;
      } else {
        status := Error;
      }
      isSubmitting := false;
    }
  }
}
