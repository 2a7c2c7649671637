/** Cover letters (actions/cover-letter.js): the fallback letter template, the
    three ways `generateCoverLetter` arrives at a stored letter, and the
    owner-scoped reads and delete of the cover-letter table. */
module CoverLetters {
  import opened Wrappers
  import opened Text
  import opened AiText
  import opened Accounts
  import opened Filtering

  /** The form fields the letter is generated from. */
  datatype LetterRequest = LetterRequest(jobTitle: string, companyName: string, jobDescription: string)

  /** The values the fallback template interpolates. */
  datatype Field = JobTitle | CompanyName | Experience | Industry | Skills | Name

  /** A piece of the template: fixed prose (numbered, see `Prose`) or a hole
      filled in from the user and the request. */
  datatype Segment = Prose(part: nat) | Hole(field: Field)

  /** The fixed prose of the fallback letter, in order. */
  function ProseText(part: nat): string {
    match part
    case 0 => "\nDear Hiring Manager,\n\nI am excited to apply for the "
    case 1 => " position at "
    case 2 => ". With "
    case 3 => " year(s) of experience in "
    case 4 => ", I have developed strong skills in "
    case 5 => " that align well with your needs.\n\nIn my previous roles, I have contributed to outcomes such as:\n- Delivering high-quality features on time\n- Collaborating effectively with cross-functional teams\n- Continuously improving processes and documentation\n\nI am particularly interested in this opportunity at "
    case 6 => " because it aligns with my background and goals. I believe my experience and proactive approach will enable me to contribute quickly and effectively to your team.\n\nThank you for considering my application. I would welcome the opportunity to discuss how I can add value to "
    case 7 => ".\n\nSincerely,\n"
    case 8 => "\n"
    case _ => ""
  }

  /** The number of segments of the fallback letter. */
  const TemplateLength: nat := 17

  /** The fallback letter's layout: segment `k`, prose and holes alternating. */
  function TemplateSegment(k: nat): Segment
    requires k < TemplateLength
  {
    match k
    case 0 => Prose(0)
    case 1 => Hole(JobTitle)
    case 2 => Prose(1)
    case 3 => Hole(CompanyName)
    case 4 => Prose(2)
    case 5 => Hole(Experience)
    case 6 => Prose(3)
    case 7 => Hole(Industry)
    case 8 => Prose(4)
    case 9 => Hole(Skills)
    case 10 => Prose(5)
    case 11 => Hole(CompanyName)
    case 12 => Prose(6)
    case 13 => Hole(CompanyName)
    case 14 => Prose(7)
    case 15 => Hole(Name)
    case _ => Prose(8)
  }

  /** `(user.skills && user.skills.length ? user.skills : [...]).join(", ")`:
      the user's skills in order, or the two default skills when the list is
      missing or empty. */
  function SkillsText(skills: Option<seq<string>>): (r: string)
    ensures skills.None? || skills.value == [] ==> r == "communication, problem solving"
    ensures skills.Some? && skills.value != [] ==> r == Join(skills.value, ", ")
  {
    if skills.Some? && |skills.value| > 0 then Join(skills.value, ", ") else "communication, problem solving"
  }

  /** What fills a hole. `??` replaces only an absent value, so a stored 0 or
      "" is kept. */
  function FieldText(f: Field, user: User, request: LetterRequest): (r: string)
    ensures f == JobTitle ==> r == request.jobTitle
    ensures f == CompanyName ==> r == request.companyName
    ensures f == Experience ==> r == IntToString(user.experience.GetOr(0))
    ensures f == Industry && user.industry.Some? ==> r == user.industry.value
    ensures f == Industry && user.industry.None? ==> r == "the industry"
    ensures f == Skills ==> r == SkillsText(user.skills)
    ensures f == Name && user.name.Some? ==> r == user.name.value
    ensures f == Name && user.name.None? ==> r == "Candidate"
  {
    match f
    case JobTitle => request.jobTitle
    case CompanyName => request.companyName
    case Experience => IntToString(user.experience.GetOr(0))
    case Industry => user.industry.GetOr("the industry")
    case Skills => SkillsText(user.skills)
    case Name => user.name.GetOr("Candidate")
  }

  /** The experience hole reads back as the stored number of years, or 0. */
  lemma ExperienceReadsBack(user: User, request: LetterRequest)
    ensures ParseInt(FieldText(Experience, user, request)) == user.experience.GetOr(0)
  {
    IntToStringRoundTrip(user.experience.GetOr(0));
  }

  /** Every skill of a user with skills appears in the skills hole, in order,
      with ", " between neighbours. */
  lemma SkillsInOrder(user: User, request: LetterRequest, k: nat)
    requires user.skills.Some? && k < |user.skills.value|
    ensures var text := FieldText(Skills, user, request);
            var at := JoinOffset(user.skills.value, ", ", k);
            && at + |user.skills.value[k]| <= |text|
            && text[at..at + |user.skills.value[k]|] == user.skills.value[k]
            && (k + 1 < |user.skills.value| ==>
                  && at + |user.skills.value[k]| <= JoinOffset(user.skills.value, ", ", k + 1) <= |text|
                  && text[at + |user.skills.value[k]|..JoinOffset(user.skills.value, ", ", k + 1)] == ", ")
  {
    JoinPlacesInOrder(user.skills.value, ", ", k);
    if k + 1 < |user.skills.value| {
      JoinSeparates(user.skills.value, ", ", k);
    }
  }

  function SegmentText(s: Segment, user: User, request: LetterRequest): string {
    match s
    case Prose(part) => ProseText(part)
    case Hole(f) => FieldText(f, user, request)
  }

  /** What each segment becomes for this user and this request. */
  function Fill(user: User, request: LetterRequest): Segment -> string {
    (s: Segment) => SegmentText(s, user, request)
  }

  /** Segments `from` up to `to` of the template, each replaced by `fill`. */
  function Render(from: nat, to: nat, fill: Segment -> string): string
    requires from <= to <= TemplateLength
    decreases (to as int) - (from as int)
  {
    if from == to then "" else fill(TemplateSegment(from)) + Render(from + 1, to, fill)
  }

  /** Rendering two adjacent stretches of the template renders each, one
      after the other. */
  lemma {:induction false} RenderSplit(from: nat, mid: nat, to: nat, fill: Segment -> string)
    requires from <= mid <= to <= TemplateLength
    ensures Render(from, to, fill) == Render(from, mid, fill) + Render(mid, to, fill)
    decreases (mid as int) - (from as int)
  {
    if from < mid {
      RenderSplit(from + 1, mid, to, fill);
    }
  }

  /** Segment `k` shows up between what comes before it and what comes after
      it. */
  lemma RenderAt(k: nat, to: nat, fill: Segment -> string)
    requires k < to <= TemplateLength
    ensures Render(0, to, fill) == Render(0, k, fill) + (fill(TemplateSegment(k)) + Render(k + 1, to, fill))
  {
    RenderSplit(0, k, to, fill);
  }

  /** `fallbackLetter({ user, data })`: the template rendered segment by
      segment, so every hole shows its value (the job title, the company, the
      years of experience or 0, the industry or "the industry", the skills,
      the name or "Candidate") between the prose before it and the text
      after it. */
  function FallbackLetter(user: User, request: LetterRequest): (r: string)
    ensures forall k :: 0 <= k < TemplateLength && TemplateSegment(k).Hole? ==>
              r == Render(0, k, Fill(user, request)) +
                   (FieldText(TemplateSegment(k).field, user, request) +
                    Render(k + 1, TemplateLength, Fill(user, request)))
  {
    var fill := Fill(user, request);
    assert forall k :: 0 <= k < TemplateLength && TemplateSegment(k).Hole? ==>
             Render(0, TemplateLength, fill) ==
               Render(0, k, fill) + (FieldText(TemplateSegment(k).field, user, request) +
                                     Render(k + 1, TemplateLength, fill)) by {
      forall k | 0 <= k < TemplateLength && TemplateSegment(k).Hole?
        ensures Render(0, TemplateLength, fill) ==
                  Render(0, k, fill) + (FieldText(TemplateSegment(k).field, user, request) +
                                        Render(k + 1, TemplateLength, fill))
      {
        assert fill(TemplateSegment(k)) == FieldText(TemplateSegment(k).field, user, request);
        RenderAt(k, TemplateLength, fill);
      }
    }
    Render(0, TemplateLength, fill)
  }

  /** The template names the job title once, the company three times and the
      user once. */
  lemma TemplateHoles(k: nat)
    requires k < TemplateLength
    ensures TemplateSegment(k) == Hole(CompanyName) <==> k == 3 || k == 11 || k == 13
    ensures TemplateSegment(k) == Hole(JobTitle) <==> k == 1
    ensures TemplateSegment(k) == Hole(Name) <==> k == 15
  {
  }

  /** The fallback letter is prose with the company name in three places:
      the opening sentence, the paragraph of interest and the closing
      sentence. */
  lemma FallbackNamesCompany(user: User, request: LetterRequest, k: nat)
    requires k == 3 || k == 11 || k == 13
    ensures var fill := Fill(user, request);
            FallbackLetter(user, request) ==
              Render(0, k, fill) + (request.companyName + Render(k + 1, TemplateLength, fill))
  {
    var fill := Fill(user, request);
    assert TemplateSegment(k) == Hole(CompanyName);
    assert fill(Hole(CompanyName)) == request.companyName;
    RenderAt(k, TemplateLength, fill);
  }

  /** A row of the cover-letter table. */
  datatype CoverLetter = CoverLetter(
    id: nat,
    userId: nat,
    content: string,
    jobDescription: string,
    companyName: string,
    jobTitle: string,
    status: string)

  /** The row that a create writes for `user` with `content`. */
  function NewLetter(id: nat, user: User, request: LetterRequest, content: string): (r: CoverLetter)
    ensures r.id == id && r.userId == user.id && r.content == content
    ensures r.jobDescription == request.jobDescription && r.companyName == request.companyName
    ensures r.jobTitle == request.jobTitle && r.status == "completed"
  {
    CoverLetter(id, user.id, content, request.jobDescription, request.companyName, request.jobTitle, "completed")
  }

  /** Whether the first create inside the `try` is reached: with no key, or
      when the model replies; a model call that throws skips it. */
  predicate FirstCreateReached(apiKey: Option<string>, reply: AiReply) {
    !Configured(apiKey) || reply.Replied?
  }

  /** The content the stored letter ends up with: the trimmed model reply when
      that create goes through, the fallback letter on every other path. */
  function LetterContent(user: User, request: LetterRequest, apiKey: Option<string>, reply: AiReply,
                         firstCreateFails: bool): (r: string)
    ensures Configured(apiKey) && reply.Replied? && !firstCreateFails ==> r == Trim(reply.text)
    ensures !(Configured(apiKey) && reply.Replied? && !firstCreateFails) ==> r == FallbackLetter(user, request)
  {
    if Configured(apiKey) && reply.Replied? && !firstCreateFails then Trim(reply.text)
    else FallbackLetter(user, request)
  }

  /** Whether `generateCoverLetter` ends in a database error: the create in
      the `catch` is the last attempt, and it runs when the first create was
      skipped or failed. */
  predicate CreateGivesUp(apiKey: Option<string>, reply: AiReply, firstCreateFails: bool, retryCreateFails: bool) {
    (!FirstCreateReached(apiKey, reply) || firstCreateFails) && retryCreateFails
  }

  /** Row ids are below `nextId` and pairwise different. */
  predicate WellKeyed(letters: seq<CoverLetter>, nextId: nat) {
    && (forall k :: 0 <= k < |letters| ==> letters[k].id < nextId)
    && (forall i, j :: 0 <= i < j < |letters| ==> letters[i].id != letters[j].id)
  }

  /** The letters of user `userId`, in the order they were written. */
  function LettersOf(letters: seq<CoverLetter>, userId: nat): (r: seq<CoverLetter>)
    ensures forall k :: 0 <= k < |r| ==> r[k] in letters && r[k].userId == userId
    ensures forall k :: 0 <= k < |letters| && letters[k].userId == userId ==> letters[k] in r
  {
    Filter(letters, (c: CoverLetter) => c.userId == userId)
  }

  /** `findUnique({ where: { id, userId } })`: the position of the row with
      this id that belongs to this user, if there is one. */
  function Find(letters: seq<CoverLetter>, id: nat, userId: nat): (r: Option<nat>)
    ensures r.Some? ==> r.value < |letters| && letters[r.value].id == id && letters[r.value].userId == userId
    ensures r.None? <==> forall k :: 0 <= k < |letters| ==> !(letters[k].id == id && letters[k].userId == userId)
    decreases |letters|
  {
    if letters == [] then None
    else if letters[0].id == id && letters[0].userId == userId then Some(0)
    else
      match Find(letters[1..], id, userId)
      case None =>
        assert forall k :: 1 <= k < |letters| ==> letters[k] == letters[1..][k - 1];
        None
      case Some(k) => Some(k + 1)
  }

  /** Another user's letter is never found, whatever its id. */
  lemma FindIsOwnerScoped(letters: seq<CoverLetter>, k: nat, userId: nat)
    requires k < |letters| && letters[k].userId != userId
    ensures Find(letters, letters[k].id, userId) != Some(k)
  {
  }

  /** Removing the row at `k` keeps every other row and the key invariant,
      and with distinct ids the removed row is gone. */
  lemma RemoveAt(letters: seq<CoverLetter>, nextId: nat, k: nat)
    requires WellKeyed(letters, nextId) && k < |letters|
    ensures var rest := letters[..k] + letters[k + 1..];
            && WellKeyed(rest, nextId)
            && (forall i :: 0 <= i < |letters| && i != k ==> letters[i] in rest)
            && (forall i :: 0 <= i < |rest| ==> rest[i].id != letters[k].id)
            && |rest| == |letters| - 1
  {
    var rest := letters[..k] + letters[k + 1..];
    assert forall i :: 0 <= i < |rest| ==> rest[i] == letters[if i < k then i else i + 1];
    forall i | 0 <= i < |letters| && i != k
      ensures letters[i] in rest
    {
      if i < k {
        assert rest[i] == letters[i];
      } else {
        assert rest[i - 1] == letters[i];
      }
    }
  }

  /** The cover-letter table; `nextId` stands for the ids the database hands
      out. */
  class CoverLetterStore {
    var letters: seq<CoverLetter>
    var nextId: nat

    ghost predicate Valid()
      reads this
    {
      WellKeyed(letters, nextId)
    }

    constructor()
      ensures Valid() && letters == [] && nextId == 0
    {
      letters := [];
      nextId := 0;
    }

    /** One `coverLetter.create`: a fresh id, the row appended. */
    method Create(user: User, request: LetterRequest, content: string) returns (letter: CoverLetter)
      requires Valid()
      modifies this
      ensures Valid()
      ensures letter == NewLetter(old(nextId), user, request, content)
      ensures letters == old(letters) + [letter] && nextId == old(nextId) + 1
    {
      letter := NewLetter(nextId, user, request, content);
      letters := letters + [letter];
      nextId := nextId + 1;
    }

    /** `generateCoverLetter(data)`: the caller checks come first and write
        nothing. Then, with no key, the fallback letter is created; with a
        key, the model's trimmed reply is. A model call that throws or a
        first create that fails lands in the `catch`, which creates the
        fallback letter once more; only a failure there escapes. */
    method GenerateCoverLetter(caller: Option<string>, users: map<string, User>, request: LetterRequest,
                               apiKey: Option<string>, reply: AiReply,
                               firstCreateFails: bool, retryCreateFails: bool)
      returns (r: Result<CoverLetter, Error>)
      requires Valid()
      modifies this
      ensures Valid()
      ensures CurrentUser(caller, users).Failure? ==>
                r == Failure(CurrentUser(caller, users).error) && letters == old(letters) && nextId == old(nextId)
      ensures CurrentUser(caller, users).Success? && CreateGivesUp(apiKey, reply, firstCreateFails, retryCreateFails) ==>
                r == Failure(StoreFailure) && letters == old(letters) && nextId == old(nextId)
      ensures CurrentUser(caller, users).Success? && !CreateGivesUp(apiKey, reply, firstCreateFails, retryCreateFails) ==>
                var user := users[caller.value];
                && r == Success(NewLetter(old(nextId), user, request,
                                          LetterContent(user, request, apiKey, reply, firstCreateFails)))
                && letters == old(letters) + [r.value]
    {
      var user := CurrentUser(caller, users);
      if user.Failure? {
        return Failure(user.error);
      }
      var u := user.value;
      // The `try`: no key means the fallback letter, otherwise the model's
      // reply; a throwing model call never gets to the create.
      if FirstCreateReached(apiKey, reply) && !firstCreateFails {
        var content := if !Configured(apiKey) then FallbackLetter(u, request) else Trim(reply.text);
        var letter := Create(u, request, content);
        return Success(letter);
      }
      // The `catch`: one more create, with the fallback letter.
      if retryCreateFails {
        return Failure(StoreFailure);
      }
      var letter := Create(u, request, FallbackLetter(u, request));
      r := Success(letter);
    }

    /** `getCoverLetters()`: the caller's letters and no one else's, each
        once, in the order they were written. */
    method GetCoverLetters(caller: Option<string>, users: map<string, User>)
      returns (r: Result<seq<CoverLetter>, Error>)
      ensures CurrentUser(caller, users).Failure? ==> r == Failure(CurrentUser(caller, users).error)
      ensures CurrentUser(caller, users).Success? ==>
                && r == Success(LettersOf(letters, users[caller.value].id))
                && (forall k :: 0 <= k < |r.value| ==> r.value[k] in letters && r.value[k].userId == users[caller.value].id)
                && (forall k :: 0 <= k < |letters| && letters[k].userId == users[caller.value].id ==> letters[k] in r.value)
    {
      var user := CurrentUser(caller, users);
      if user.Failure? {
        return Failure(user.error);
      }
      r := Success(LettersOf(letters, user.value.id));
    }

    /** `getCoverLetter(id)`: the letter with this id if it is the caller's,
        otherwise null. */
    method GetCoverLetter(caller: Option<string>, users: map<string, User>, id: nat)
      returns (r: Result<Option<CoverLetter>, Error>)
      ensures CurrentUser(caller, users).Failure? ==> r == Failure(CurrentUser(caller, users).error)
      ensures CurrentUser(caller, users).Success? ==>
                && r.Success?
                && (r.value.Some? ==> r.value.value in letters && r.value.value.id == id
                                      && r.value.value.userId == users[caller.value].id)
                && (r.value.None? <==> forall k :: 0 <= k < |letters| ==>
                                         !(letters[k].id == id && letters[k].userId == users[caller.value].id))
    {
      var user := CurrentUser(caller, users);
      if user.Failure? {
        return Failure(user.error);
      }
      var found := Find(letters, id, user.value.id);
      if found.None? {
        return Success(None);
      }
      r := Success(Some(letters[found.value]));
    }

    /** `deleteCoverLetter(id)`: the caller's letter with this id is removed
        and returned; when there is none the delete throws and nothing
        changes. */
    method DeleteCoverLetter(caller: Option<string>, users: map<string, User>, id: nat)
      returns (r: Result<CoverLetter, Error>)
      requires Valid()
      modifies this
      ensures Valid() && nextId == old(nextId)
      ensures CurrentUser(caller, users).Failure? ==>
                r == Failure(CurrentUser(caller, users).error) && letters == old(letters)
      ensures CurrentUser(caller, users).Success? && Find(old(letters), id, users[caller.value].id).None? ==>
                r == Failure(RecordNotFound) && letters == old(letters)
      ensures CurrentUser(caller, users).Success? && Find(old(letters), id, users[caller.value].id).Some? ==>
                var k := Find(old(letters), id, users[caller.value].id).value;
                && r == Success(old(letters)[k])
                && letters == old(letters)[..k] + old(letters)[k + 1..]
    {
      var user := CurrentUser(caller, users);
      if user.Failure? {
        return Failure(user.error);
      }
      var found := Find(letters, id, user.value.id);
      if found.None? {
        return Failure(RecordNotFound);
      }
      var k := found.value;
      r := Success(letters[k]);
      RemoveAt(letters, nextId, k);
      letters := letters[..k] + letters[k + 1..];
    }
  }
}
