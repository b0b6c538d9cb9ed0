/**
 * The household-sharing endpoint: GET reports the caller's household, POST
 * creates a household under a fresh six-character invite code or joins one
 * by code. Database reads and writes are inputs (their outcomes) and outputs
 * (the inserts the handler issues); random draws are an input sequence.
 */
module Household {
  import opened Js
  import opened Text
  import opened Session

  /** The invite-code alphabet: upper-case letters and digits without 0, 1, I, O. */
  const CodeAlphabet: string := "ABCDEFGHJKLMNPQRSTUVWXYZ23456789"
  const CodeLength: nat := 6

  /** The alphabet has 32 distinct characters and none of the ambiguous 0, 1, I, O. */
  lemma AlphabetShape()
    ensures |CodeAlphabet| == 32
    ensures forall i, j :: 0 <= i < j < |CodeAlphabet| ==> CodeAlphabet[i] != CodeAlphabet[j]
    ensures '0' !in CodeAlphabet && '1' !in CodeAlphabet && 'I' !in CodeAlphabet && 'O' !in CodeAlphabet
  {
    LettersRun();
    DigitsRun();
    NoIorO();
    forall i, j | 0 <= i < j < |CodeAlphabet| ensures CodeAlphabet[i] != CodeAlphabet[j] {
      if j < 24 {
        Increasing(i, j, 0, 23);
      } else if 24 <= i {
        Increasing(i, j, 24, 31);
      }
    }
  }

  /** The first 24 characters are letters in increasing order. */
  lemma LettersRun()
    ensures |CodeAlphabet| == 32
    ensures forall k :: 0 <= k < 23 ==> CodeAlphabet[k] < CodeAlphabet[k + 1]
    ensures forall k :: 0 <= k < 24 ==> 'A' <= CodeAlphabet[k] <= 'Z'
  {
  }

  /** The last 8 characters are digits in increasing order. */
  lemma DigitsRun()
    ensures forall k :: 24 <= k < 31 ==> CodeAlphabet[k] < CodeAlphabet[k + 1]
    ensures forall k :: 24 <= k < 32 ==> '2' <= CodeAlphabet[k] <= '9'
  {
  }

  lemma NoIorO()
    ensures 'I' !in CodeAlphabet && 'O' !in CodeAlphabet
  {
  }

  /** Within an increasing run, an earlier character is smaller. */
  lemma Increasing(i: int, j: int, lo: int, hi: int)
    requires 0 <= lo <= i < j <= hi < |CodeAlphabet|
    requires forall k :: lo <= k < hi ==> CodeAlphabet[k] < CodeAlphabet[k + 1]
    ensures CodeAlphabet[i] < CodeAlphabet[j]
    decreases j - i
  {
    if j > i + 1 {
      Increasing(i, j - 1, lo, hi);
    }
  }

  /** A draw is an index `floor(random() * 32)`, so it lies in [0, 32). */
  predicate ValidDraws(draws: seq<int>) {
    forall i :: 0 <= i < |draws| ==> 0 <= draws[i] < |CodeAlphabet|
  }

  /** The code spelled by a sequence of draws. */
  function CodeFrom(draws: seq<int>): (code: string)
    requires ValidDraws(draws)
    ensures |code| == |draws|
    ensures forall i :: 0 <= i < |code| ==> code[i] in CodeAlphabet
  {
    seq(|draws|, i requires 0 <= i < |draws| => CodeAlphabet[draws[i]])
  }

  /**
   * The generation loop: six draws, each appending one alphabet character.
   * The result has six characters, all from the alphabet.
   */
  method GenerateCode(draws: seq<int>) returns (code: string)
    requires |draws| == CodeLength && ValidDraws(draws)
    ensures |code| == CodeLength
    ensures forall i :: 0 <= i < |code| ==> code[i] in CodeAlphabet
    ensures code == CodeFrom(draws)
  {
    code := "";
    var i := 0;
    while i < CodeLength
      invariant 0 <= i <= CodeLength
      invariant code == CodeFrom(draws[..i])
    {
      code := code + [CodeAlphabet[draws[i]]];
      i := i + 1;
    }
    assert draws[..CodeLength] == draws;
  }

  /** Different draws give different codes: no two outcomes collide. */
  lemma CodeFromInjective(a: seq<int>, b: seq<int>)
    requires ValidDraws(a) && ValidDraws(b) && |a| == |b|
    requires CodeFrom(a) == CodeFrom(b)
    ensures a == b
  {
    AlphabetShape();
    forall i | 0 <= i < |a| ensures a[i] == b[i] {
      assert CodeFrom(a)[i] == CodeFrom(b)[i];
    }
  }

  // ----------------------------------------------------------- entered codes

  /** `code.toUpperCase().trim()`. */
  function NormalizeCode(code: string): string {
    Trim(ToUpper(code))
  }

  /** Normalising twice is normalising once. */
  lemma NormalizeIdempotent(code: string)
    ensures NormalizeCode(NormalizeCode(code)) == NormalizeCode(code)
  {
    var u := ToUpper(code);
    var n := Trim(u);
    assert ToUpper(n) == n by {
      ToUpperIsUpper(code);
      TrimKeepsUpper(u);
      UpperFixed(n);
    }
    assert Trim(n) == n by {
      TrimIdempotent(u);
    }
  }

  /** Trimming an upper-cased string leaves it upper-cased: the trim is a slice. */
  lemma TrimKeepsUpper(u: string)
    requires IsUpper(u)
    ensures IsUpper(Trim(u))
  {
    TrimSlice(u);
    var r := Trim(u);
    var k := LeadingWhitespace(u);
    forall i | 0 <= i < |r| ensures UpperChar(r[i]) == r[i] {
      assert r[i] == u[k..k + |r|][i] == u[k + i];
    }
  }

  /** How a user may type a code: each character as is or in lower case. */
  predicate TypedAs(code: string, typed: string) {
    |typed| == |code| && forall i :: 0 <= i < |code| ==> typed[i] == code[i] || typed[i] == LowerChar(code[i])
  }

  /**
   * A generated code typed in any mix of cases, with any surrounding
   * whitespace, normalises back to the code itself.
   */
  lemma TypedCodeNormalizes(draws: seq<int>, typed: string, before: string, after: string)
    requires |draws| == CodeLength && ValidDraws(draws)
    requires TypedAs(CodeFrom(draws), typed)
    requires AllWhitespace(before) && AllWhitespace(after)
    ensures NormalizeCode(before + typed + after) == CodeFrom(draws)
  {
    var code := CodeFrom(draws);
    assert ToUpper(typed) == code by {
      forall i | 0 <= i < |code| ensures ToUpper(typed)[i] == code[i] {
        AlphabetChar(code[i]);
      }
    }
    ToUpperAppend(before + typed, after);
    ToUpperAppend(before, typed);
    ToUpperKeepsWhitespace(before);
    ToUpperKeepsWhitespace(after);
    AlphabetChar(code[0]);
    AlphabetChar(code[CodeLength - 1]);
    TrimSurrounded(before, code, after);
  }

  /** An alphabet character is an upper-case letter or a digit: not whitespace, unchanged by upper-casing. */
  lemma AlphabetChar(c: char)
    requires c in CodeAlphabet
    ensures ('A' <= c <= 'Z') || ('2' <= c <= '9')
    ensures !IsWhitespace(c) && UpperChar(c) == c && UpperChar(LowerChar(c)) == c
  {
    LettersRun();
    DigitsRun();
  }

  // -------------------------------------------------------------- the handler

  /** A member as the endpoints report it. */
  datatype Member = Member(displayName: string, role: string, joinedAt: string)

  datatype HouseholdRow = HouseholdRow(id: string, code: string)

  /** The JSON body of a POST: `{ action, code }`. */
  datatype PostBody = PostBody(action: Value, code: Value)

  /** The outcomes of the database calls a POST may make. */
  datatype Backend = Backend(
    insertedId: Option<string>,            // the created household's id, or none on an insert error
    householdsByCode: map<string, string>, // existing households: code -> id
    memberInsertFails: bool,               // the join's membership insert reports an error
    members: Option<seq<Member>>,          // the member list re-read after a join
    now: string)                           // the current time, ISO 8601

  /** The inserts a POST issues. */
  datatype Effect =
    | InsertHousehold(code: string, createdBy: string)
    | InsertMember(householdId: string, userId: string, displayName: string, role: string)

  datatype PostResponse =
    | Unauthorized
    | CreateFailed
    | Created(household: HouseholdRow, members: seq<Member>)
    | CodeRequired
    | CodeNotFound
    | AlreadyJoined
    | Joined(household: HouseholdRow, members: seq<Member>)
    | InvalidAction
    | Crashed   // an exception the handler does not catch (unreadable body, non-string code)

  function StatusCode(r: PostResponse): int {
    match r
    case Unauthorized => 401
    case CreateFailed => 500
    case Created(_, _) => 200
    case CodeRequired => 400
    case CodeNotFound => 404
    case AlreadyJoined => 400
    case Joined(_, _) => 200
    case InvalidAction => 400
    case Crashed => 500
  }

  datatype PostOutcome = PostOutcome(response: PostResponse, effects: seq<Effect>)

  /** `full_name`, else the e-mail's local part, else "メンバー"; empty values are skipped. */
  function DisplayName(user: User): (r: string)
    ensures r != ""
    ensures TruthyString(user.fullName) ==> r == user.fullName.value
    ensures (!TruthyString(user.fullName) && user.email.Some? && BeforeFirst(user.email.value, '@') != "")
              ==> r == BeforeFirst(user.email.value, '@') && '@' !in r
    ensures (!TruthyString(user.fullName) && (user.email.None? || BeforeFirst(user.email.value, '@') == ""))
              ==> r == "メンバー"
  {
    if TruthyString(user.fullName) then user.fullName.value
    else if user.email.Some? && BeforeFirst(user.email.value, '@') != "" then BeforeFirst(user.email.value, '@')
    else "メンバー"
  }

  /** POST /api/household. */
  function Post(user: Option<User>, body: Option<PostBody>, draws: seq<int>, db: Backend): PostOutcome
    requires |draws| == CodeLength && ValidDraws(draws)
  {
    if user.None? then PostOutcome(Unauthorized, [])
    else if body.None? then PostOutcome(Crashed, [])
    else if body.value.action == Str("create") then Create(user.value, draws, db)
    else if body.value.action == Str("join") then Join(user.value, body.value.code, db)
    else PostOutcome(InvalidAction, [])
  }

  /** The create branch: insert a household under a generated code, then its owner. */
  function Create(user: User, draws: seq<int>, db: Backend): PostOutcome
    requires |draws| == CodeLength && ValidDraws(draws)
  {
    var name := DisplayName(user);
    var newCode := CodeFrom(draws);
    var insert := InsertHousehold(newCode, user.id);
    match db.insertedId
    case None => PostOutcome(CreateFailed, [insert])
    case Some(id) =>
      PostOutcome(
        Created(HouseholdRow(id, newCode), [Member(name, "owner", db.now)]),
        [insert, InsertMember(id, user.id, name, "owner")])
  }

  /** The join branch: look the normalised code up, then insert the caller as a member. */
  function Join(user: User, code: Value, db: Backend): PostOutcome {
    if !Truthy(code) then PostOutcome(CodeRequired, [])
    else if !code.Str? then PostOutcome(Crashed, [])
    else
      var wanted := NormalizeCode(code.s);
      if wanted !in db.householdsByCode then PostOutcome(CodeNotFound, [])
      else
        var h := HouseholdRow(db.householdsByCode[wanted], wanted);
        var insert := InsertMember(h.id, user.id, DisplayName(user), "member");
        if db.memberInsertFails then PostOutcome(AlreadyJoined, [insert])
        else PostOutcome(Joined(h, db.members.GetOr([])), [insert])
  }

  /** An unauthenticated POST is refused with 401 before anything is written. */
  lemma PostUnauthenticated(body: Option<PostBody>, draws: seq<int>, db: Backend)
    requires |draws| == CodeLength && ValidDraws(draws)
    ensures Post(None, body, draws, db) == PostOutcome(Unauthorized, [])
    ensures StatusCode(Post(None, body, draws, db).response) == 401
  {
  }

  /**
   * Create: the household is inserted under the generated code by the
   * caller; an insert failure is a 500, otherwise the reply lists exactly
   * one member, the caller, as owner, and the owner membership is inserted.
   */
  lemma CreateOutcome(user: User, code: Value, draws: seq<int>, db: Backend)
    requires |draws| == CodeLength && ValidDraws(draws)
    ensures var o := Post(Some(user), Some(PostBody(Str("create"), code)), draws, db);
      && |o.effects| >= 1
      && o.effects[0] == InsertHousehold(CodeFrom(draws), user.id)
      && (db.insertedId.None? <==> StatusCode(o.response) == 500)
      && (db.insertedId.None? ==> |o.effects| == 1)
      && (db.insertedId.Some? ==>
            && o.response.Created?
            && o.response.household.code == CodeFrom(draws)
            && |o.response.members| == 1
            && o.response.members[0].role == "owner"
            && o.response.members[0].displayName == DisplayName(user)
            && o.effects == [InsertHousehold(CodeFrom(draws), user.id),
                             InsertMember(db.insertedId.value, user.id, DisplayName(user), "owner")])
  {
  }

  /**
   * Join with a code no household has after normalisation: a 404, and
   * nothing is written.
   */
  lemma JoinNotFound(user: User, code: string, draws: seq<int>, db: Backend)
    requires |draws| == CodeLength && ValidDraws(draws)
    requires code != "" && NormalizeCode(code) !in db.householdsByCode
    ensures Post(Some(user), Some(PostBody(Str("join"), Str(code))), draws, db) == PostOutcome(CodeNotFound, [])
    ensures StatusCode(PostOutcome(CodeNotFound, []).response) == 404
  {
    assert Post(Some(user), Some(PostBody(Str("join"), Str(code))), draws, db) == Join(user, Str(code), db);
  }

  /**
   * Join with a code that matches a household after normalisation: the
   * caller is inserted as a member; a failing insert is a 400 ("already
   * joined"), otherwise the household and its re-read members are returned.
   */
  lemma JoinFound(user: User, code: string, draws: seq<int>, db: Backend)
    requires |draws| == CodeLength && ValidDraws(draws)
    requires code != "" && NormalizeCode(code) in db.householdsByCode
    ensures var o := Post(Some(user), Some(PostBody(Str("join"), Str(code))), draws, db);
      var id := db.householdsByCode[NormalizeCode(code)];
      && o.effects == [InsertMember(id, user.id, DisplayName(user), "member")]
      && (db.memberInsertFails <==> o.response == AlreadyJoined)
      && (db.memberInsertFails ==> StatusCode(o.response) == 400)
      && (!db.memberInsertFails ==> o.response == Joined(HouseholdRow(id, NormalizeCode(code)), db.members.GetOr([])))
  {
    assert Post(Some(user), Some(PostBody(Str("join"), Str(code))), draws, db) == Join(user, Str(code), db);
  }

  /** A join without a usable code field is a 400 and writes nothing. */
  lemma JoinWithoutCode(user: User, code: Value, draws: seq<int>, db: Backend)
    requires |draws| == CodeLength && ValidDraws(draws)
    requires !Truthy(code)
    ensures Post(Some(user), Some(PostBody(Str("join"), code)), draws, db) == PostOutcome(CodeRequired, [])
  {
  }

  /** Any action other than "create" and "join" is a 400 that writes nothing. */
  lemma OtherActionInvalid(user: User, action: Value, code: Value, draws: seq<int>, db: Backend)
    requires |draws| == CodeLength && ValidDraws(draws)
    requires action != Str("create") && action != Str("join")
    ensures Post(Some(user), Some(PostBody(action, code)), draws, db) == PostOutcome(InvalidAction, [])
  {
  }

  /**
   * A household created under generated code `c` is found by a join that
   * types `c` in any case with surrounding whitespace.
   */
  lemma JoinFindsGeneratedCode(user: User, created: seq<int>, typed: string, before: string, after: string,
                               draws: seq<int>, db: Backend)
    requires |created| == CodeLength && ValidDraws(created)
    requires |draws| == CodeLength && ValidDraws(draws)
    requires TypedAs(CodeFrom(created), typed)
    requires AllWhitespace(before) && AllWhitespace(after)
    requires CodeFrom(created) in db.householdsByCode
    ensures var o := Post(Some(user), Some(PostBody(Str("join"), Str(before + typed + after))), draws, db);
      && (o.response.Joined? || o.response == AlreadyJoined)
      && o.effects[0].householdId == db.householdsByCode[CodeFrom(created)]
  {
    TypedCodeNormalizes(created, typed, before, after);
    var entered := before + typed + after;
    assert |entered| >= CodeLength;
    JoinFound(user, entered, draws, db);
  }

  // ---------------------------------------------------------------------- GET

  datatype Membership = Membership(householdId: string, role: string)

  datatype GetResponse = NoHousehold | HouseholdInfo(household: Option<HouseholdRow>, members: seq<Member>)

  /**
   * GET /api/household: no household for a signed-out caller or one without a
   * membership; otherwise the household row (as read) and its members, an
   * unreadable member list reported as empty.
   */
  function Get(user: Option<User>, membership: Option<Membership>, household: Option<HouseholdRow>,
               members: Option<seq<Member>>): (r: GetResponse)
    ensures r == NoHousehold <==> user.None? || membership.None?
    ensures r.HouseholdInfo? ==> r.household == household && r.members == members.GetOr([])
  {
    if user.None? then NoHousehold
    else if membership.None? then NoHousehold
    else HouseholdInfo(household, members.GetOr([]))
  }
}
