/** The API server (server/index.js) over its two MySQL tables (server/db.js:32-55), held in
    memory. Each handler is a step function from the tables before the request to the tables
    after it and the reply; class `Database` performs the same steps in place. A failing store
    call is a parameter `fault`: the driver's error text, or `None` when the store answers. */
module ServerStore {
  import opened Text
  import opened Json
  import Seqs

  // ---------------------------------------------------------------------------------------
  // The tables

  /** A row of `users`: `id` is AUTO_INCREMENT, `role` defaults to 'Director' and
      `created_at` to the time of the insert. */
  datatype UserRow = UserRow(id: nat, name: string, email: string, password: string, role: string, createdAt: int)

  /** A row of `script_analysis`. `analysis_data` is a JSON column: it holds the document the
      INSERT's text parses to, and the driver hands it back as that document. */
  datatype AnalysisRow = AnalysisRow(
    id: nat, userId: int, fileName: string, tone: string, riskScore: int, analysisData: Value, createdAt: int)

  datatype Tables = Tables(users: seq<UserRow>, analyses: seq<AnalysisRow>, nextUserId: nat, nextAnalysisId: nat)

  /** The key under which `email` is compared: MySQL's default collations ignore case. */
  function EmailKey(email: string): string
  {
    ToLower(email)
  }

  /** The UNIQUE constraint on `users.email`. */
  predicate EmailsUnique(users: seq<UserRow>)
  {
    forall i, j :: 0 <= i < j < |users| ==> EmailKey(users[i].email) != EmailKey(users[j].email)
  }

  /** AUTO_INCREMENT ids: positive, increasing in insertion order, below the next id. */
  predicate UserIdsIncreasing(users: seq<UserRow>, next: nat)
  {
    (forall i :: 0 <= i < |users| ==> 1 <= users[i].id < next) &&
    (forall i, j :: 0 <= i < j < |users| ==> users[i].id < users[j].id)
  }

  predicate AnalysisIdsIncreasing(rows: seq<AnalysisRow>, next: nat)
  {
    (forall i :: 0 <= i < |rows| ==> 1 <= rows[i].id < next) &&
    (forall i, j :: 0 <= i < j < |rows| ==> rows[i].id < rows[j].id)
  }

  predicate IsUserId(users: seq<UserRow>, id: int)
  {
    exists u :: u in users && u.id == id
  }

  /** The FOREIGN KEY from `script_analysis.user_id` to `users.id`. */
  predicate ForeignKeysHold(t: Tables)
  {
    forall i :: 0 <= i < |t.analyses| ==> IsUserId(t.users, t.analyses[i].userId)
  }

  predicate ValidTables(t: Tables)
  {
    1 <= t.nextUserId && 1 <= t.nextAnalysisId &&
    EmailsUnique(t.users) && UserIdsIncreasing(t.users, t.nextUserId) &&
    AnalysisIdsIncreasing(t.analyses, t.nextAnalysisId) && ForeignKeysHold(t)
  }

  /** Freshly created tables: empty, both counters at 1. */
  const EmptyTables := Tables([], [], 1, 1)

  lemma EmptyTablesValid()
    ensures ValidTables(EmptyTables)
  {
  }

  // ---------------------------------------------------------------------------------------
  // POST /api/auth/login

  const Token := "mock-jwt-token"
  const DefaultRole := "Director"

  /** The `user` object of a login reply. */
  datatype UserSummary = UserSummary(id: nat, name: string, email: string, role: string)

  datatype LoginReply =
    | LoginOk(user: UserSummary, token: string)
    | LoginFailed(message: string)

  function SummaryJson(u: UserSummary): Value
  {
    Obj([Member("id", Num(u.id)), Member("name", Str(u.name)), Member("email", Str(u.email)), Member("role", Str(u.role))])
  }

  /** The JSON body of a login reply; a failure is sent with status 500. */
  function LoginBody(reply: LoginReply): Value
  {
    match reply
    case LoginOk(u, token) => Obj([Member("success", Bool(true)), Member("user", SummaryJson(u)), Member("token", Str(token))])
    case LoginFailed(msg) => Obj([Member("success", Bool(false)), Member("message", Str(msg))])
  }

  /** `SELECT * FROM users WHERE email = ?`, first row: the index of the first user whose
      email has the same key. */
  function FindByEmail(users: seq<UserRow>, email: string): (r: Option<nat>)
    ensures r.Some? ==> r.value < |users| && EmailKey(users[r.value].email) == EmailKey(email)
    ensures r.Some? ==> forall j :: 0 <= j < r.value ==> EmailKey(users[j].email) != EmailKey(email)
    ensures r.None? ==> forall j :: 0 <= j < |users| ==> EmailKey(users[j].email) != EmailKey(email)
  {
    if users == [] then None
    else if EmailKey(users[0].email) == EmailKey(email) then Some(0)
    else match FindByEmail(users[1..], email)
      case None => None
      case Some(i) => Some(i + 1)
  }

  /** `email.split('@')[0]`, the display name of an auto-registered user. */
  function LocalPart(email: string): string
  {
    BeforeFirst(email, '@')
  }

  function Summary(u: UserRow): UserSummary
  {
    UserSummary(u.id, u.name, u.email, u.role)
  }

  /** The login handler: a known email logs in as the stored user whatever the password; an
      unseen one is inserted first. */
  function LoginStep(t: Tables, email: string, password: string, now: int, fault: Option<string>): (Tables, LoginReply)
  {
    if fault.Some? then (t, LoginFailed("Database error: " + fault.value))
    else match FindByEmail(t.users, email)
      case Some(i) => (t, LoginOk(Summary(t.users[i]), Token))
      case None =>
        var row := UserRow(t.nextUserId, LocalPart(email), email, password, DefaultRole, now);
        (t.(users := t.users + [row], nextUserId := t.nextUserId + 1),
         LoginOk(UserSummary(row.id, LocalPart(email), email, DefaultRole), Token))
  }

  /** Logging in keeps the tables valid; in particular no sequence of logins ever stores two
      users with the same email. */
  lemma LoginKeepsValid(t: Tables, email: string, password: string, now: int, fault: Option<string>)
    requires ValidTables(t)
    ensures ValidTables(LoginStep(t, email, password, now, fault).0)
  {
    if fault.None? && FindByEmail(t.users, email).None? {
      var t' := LoginStep(t, email, password, now, fault).0;
      assert t'.users == t.users + [t'.users[|t.users|]];
      forall i | 0 <= i < |t'.analyses| ensures IsUserId(t'.users, t'.analyses[i].userId) {
        var u :| u in t.users && u.id == t.analyses[i].userId;
        assert u in t'.users;
      }
    }
  }

  /** An unseen email adds exactly one user, named after the email's local part, with the
      default role and the next id, and the reply describes that user. */
  lemma LoginRegistersUnseenEmail(t: Tables, email: string, password: string, now: int)
    requires forall i :: 0 <= i < |t.users| ==> EmailKey(t.users[i].email) != EmailKey(email)
    ensures var (t', reply) := LoginStep(t, email, password, now, None);
      && t'.users == t.users + [UserRow(t.nextUserId, LocalPart(email), email, password, "Director", now)]
      && t'.analyses == t.analyses
      && reply == LoginOk(UserSummary(t.nextUserId, LocalPart(email), email, "Director"), "mock-jwt-token")
  {
  }

  /** A known email changes nothing and returns the stored row, whatever the password. */
  lemma LoginReturnsStoredUser(t: Tables, i: nat, email: string, password: string, now: int)
    requires ValidTables(t) && i < |t.users| && EmailKey(t.users[i].email) == EmailKey(email)
    ensures LoginStep(t, email, password, now, None) ==
      (t, LoginOk(UserSummary(t.users[i].id, t.users[i].name, t.users[i].email, t.users[i].role), "mock-jwt-token"))
  {
    var r := FindByEmail(t.users, email);
    assert r.Some? && r.value == i;
  }

  /** Logging in twice with the same email, with any two passwords, yields the same user id
      and adds at most one row. */
  lemma LoginTwiceSameUser(t: Tables, email: string, p1: string, p2: string, now1: int, now2: int)
    requires ValidTables(t)
    ensures var (t1, r1) := LoginStep(t, email, p1, now1, None);
      var (t2, r2) := LoginStep(t1, email, p2, now2, None);
      && r1.LoginOk? && r2.LoginOk? && r1.user.id == r2.user.id
      && t2 == t1 && |t1.users| <= |t.users| + 1
  {
    var (t1, r1) := LoginStep(t, email, p1, now1, None);
    LoginKeepsValid(t, email, p1, now1, None);
    match FindByEmail(t.users, email)
    case Some(i) =>
      LoginReturnsStoredUser(t1, i, email, p2, now2);
    case None =>
      var k := |t.users|;
      assert EmailKey(t1.users[k].email) == EmailKey(email);
      LoginReturnsStoredUser(t1, k, email, p2, now2);
  }

  /** Every successful login carries the fixed token. */
  lemma LoginToken(t: Tables, email: string, password: string, now: int, fault: Option<string>)
    ensures var reply := LoginStep(t, email, password, now, fault).1;
      reply.LoginOk? <==> fault.None?
    ensures var reply := LoginStep(t, email, password, now, fault).1;
      reply.LoginOk? ==> reply.token == "mock-jwt-token"
  {
  }

  // ---------------------------------------------------------------------------------------
  // POST /api/script/analyze

  datatype CharacterProfile = CharacterProfile(name: string, traits: string, importance: string, casting: string)
  datatype LocationProfile = LocationProfile(name: string, atmosphere: string, complexity: int)
  datatype AnalysisResult = AnalysisResult(
    characters: seq<CharacterProfile>, locations: seq<LocationProfile>, riskScore: int, castingNotes: string)

  /** The fixed result every analysis returns, whatever was uploaded. */
  const MockResult := AnalysisResult(
    [ CharacterProfile("Elias", "Enigmatic, Driven", "High", "Suggested: Timoth\U{00C3}\U{00A9}e Chalamet or similar"),
      CharacterProfile("Sarah", "Determined, Technical", "High", "Suggested: Zendaya or similar"),
      CharacterProfile("The Guard", "Hostile", "Minor", "Open Casting") ],
    [ LocationProfile("Subway Platform", "Dark, Neon", 8),
      LocationProfile("Control Room", "Sterile, Blue", 5) ],
    35,
    "High-contrast character profiles detected. Priority on expressive facial movements for Elias.")

  const StoredTone := "Neo-Noir"
  const StoredRisk := 35
  const AnalyzeMessage := "Analysis complete and saved to MySQL"

  function CharacterJson(c: CharacterProfile): Value
  {
    Obj([Member("name", Str(c.name)), Member("traits", Str(c.traits)),
         Member("importance", Str(c.importance)), Member("casting", Str(c.casting))])
  }

  function LocationJson(l: LocationProfile): Value
  {
    Obj([Member("name", Str(l.name)), Member("atmosphere", Str(l.atmosphere)), Member("complexity", Num(l.complexity))])
  }

  function CharactersJson(cs: seq<CharacterProfile>): (r: seq<Value>)
    ensures |r| == |cs| && forall i :: 0 <= i < |cs| ==> r[i] == CharacterJson(cs[i])
  {
    if cs == [] then [] else [CharacterJson(cs[0])] + CharactersJson(cs[1..])
  }

  function LocationsJson(ls: seq<LocationProfile>): (r: seq<Value>)
    ensures |r| == |ls| && forall i :: 0 <= i < |ls| ==> r[i] == LocationJson(ls[i])
  {
    if ls == [] then [] else [LocationJson(ls[0])] + LocationsJson(ls[1..])
  }

  /** The members of the result object, in the order the handler writes them. */
  function ResultMembers(r: AnalysisResult): seq<Member>
  {
    [ Member("characters", Arr(CharactersJson(r.characters))),
      Member("locations", Arr(LocationsJson(r.locations))),
      Member("riskScore", Num(r.riskScore)),
      Member("castingNotes", Str(r.castingNotes)) ]
  }

  function ResultJson(r: AnalysisResult): Value
  {
    Obj(ResultMembers(r))
  }

  /** Reading a result back from a document by its member names. */
  function StrField(v: Value, key: string): Option<string>
  {
    match Field(Some(v), key)
    case Some(Str(s)) => Some(s)
    case _ => None
  }

  function NumField(v: Value, key: string): Option<int>
  {
    match Field(Some(v), key)
    case Some(Num(n)) => Some(n)
    case _ => None
  }

  function CharacterFromJson(v: Value): Option<CharacterProfile>
  {
    match (StrField(v, "name"), StrField(v, "traits"), StrField(v, "importance"), StrField(v, "casting"))
    case (Some(a), Some(b), Some(c), Some(d)) => Some(CharacterProfile(a, b, c, d))
    case _ => None
  }

  function LocationFromJson(v: Value): Option<LocationProfile>
  {
    match (StrField(v, "name"), StrField(v, "atmosphere"), NumField(v, "complexity"))
    case (Some(a), Some(b), Some(c)) => Some(LocationProfile(a, b, c))
    case _ => None
  }

  function CharactersFromJson(vs: seq<Value>): Option<seq<CharacterProfile>>
  {
    if vs == [] then Some([])
    else match (CharacterFromJson(vs[0]), CharactersFromJson(vs[1..]))
      case (Some(c), Some(cs)) => Some([c] + cs)
      case _ => None
  }

  function LocationsFromJson(vs: seq<Value>): Option<seq<LocationProfile>>
  {
    if vs == [] then Some([])
    else match (LocationFromJson(vs[0]), LocationsFromJson(vs[1..]))
      case (Some(l), Some(ls)) => Some([l] + ls)
      case _ => None
  }

  function ResultFromJson(v: Value): Option<AnalysisResult>
  {
    match (Field(Some(v), "characters"), Field(Some(v), "locations"), NumField(v, "riskScore"), StrField(v, "castingNotes"))
    case (Some(Arr(cv)), Some(Arr(lv)), Some(risk), Some(notes)) =>
      (match (CharactersFromJson(cv), LocationsFromJson(lv))
       case (Some(cs), Some(ls)) => Some(AnalysisResult(cs, ls, risk, notes))
       case _ => None)
    case _ => None
  }

  lemma CharacterRoundTrip(c: CharacterProfile)
    ensures CharacterFromJson(CharacterJson(c)) == Some(c)
  {
    var ms := CharacterJson(c).members;
    LastWithAt(ms, 0, "name");
    LastWithAt(ms, 1, "traits");
    LastWithAt(ms, 2, "importance");
    LastWithAt(ms, 3, "casting");
  }

  lemma LocationRoundTrip(l: LocationProfile)
    ensures LocationFromJson(LocationJson(l)) == Some(l)
  {
    var ms := LocationJson(l).members;
    assert "atmosphere"[0] != "complexity"[0];
    LastWithAt(ms, 0, "name");
    LastWithAt(ms, 1, "atmosphere");
    LastWithAt(ms, 2, "complexity");
  }

  lemma {:induction false} CharactersRoundTrip(cs: seq<CharacterProfile>)
    ensures CharactersFromJson(CharactersJson(cs)) == Some(cs)
  {
    if cs != [] {
      CharacterRoundTrip(cs[0]);
      CharactersRoundTrip(cs[1..]);
      assert CharactersJson(cs)[1..] == CharactersJson(cs[1..]);
      assert [cs[0]] + cs[1..] == cs;
    }
  }

  lemma {:induction false} LocationsRoundTrip(ls: seq<LocationProfile>)
    ensures LocationsFromJson(LocationsJson(ls)) == Some(ls)
  {
    if ls != [] {
      LocationRoundTrip(ls[0]);
      LocationsRoundTrip(ls[1..]);
      assert LocationsJson(ls)[1..] == LocationsJson(ls[1..]);
      assert [ls[0]] + ls[1..] == ls;
    }
  }

  /** A result document decodes back to the result it was built from. */
  lemma ResultRoundTrip(r: AnalysisResult)
    ensures ResultFromJson(ResultJson(r)) == Some(r)
  {
    var ms := ResultMembers(r);
    assert "locations"[0] != "riskScore"[0];
    LastWithAt(ms, 0, "characters");
    LastWithAt(ms, 1, "locations");
    LastWithAt(ms, 2, "riskScore");
    LastWithAt(ms, 3, "castingNotes");
    CharactersRoundTrip(r.characters);
    LocationsRoundTrip(r.locations);
  }

  datatype AnalyzeReply =
    | AnalyzeOk(result: AnalysisResult, message: string)
    | AnalyzeFailed(message: string)

  /** The JSON body of a reply: `{ success: true, ...analysisResult, message }`. */
  function AnalyzeBody(reply: AnalyzeReply): Value
  {
    match reply
    case AnalyzeOk(r, msg) => Obj([Member("success", Bool(true))] + ResultMembers(r) + [Member("message", Str(msg))])
    case AnalyzeFailed(msg) => Obj([Member("success", Bool(false)), Member("message", Str(msg))])
  }

  /** The leading words of the MySQL driver's message for an INSERT whose `user_id` is not an
      integer or names no user; the full message goes on with the offending value, the database
      and the constraint name. */
  const BadIntegerError := "Incorrect integer value for column 'user_id'"
  const ForeignKeyError := "Cannot add or update a child row: a foreign key constraint fails"

  /** The integer a `userId` form or query field stands for: an absent or empty field falls back
      to 1 (`|| 1`); any other text is converted to an integer, and `None` means it is not one. */
  function UserIdParam(field: Option<string>): (r: Option<int>)
    ensures field.None? || field == Some("") ==> r == Some(1)
  {
    match field
    case None => Some(1)
    case Some(text) =>
      if text == "" then Some(1)
      else match ParseDecimal(text)
        case Some(n) => Some(n)
        case None => None
  }

  /** `file?.originalname || 'Mock Script'`. */
  function StoredFileName(originalName: Option<string>): string
  {
    match originalName
    case Some(n) => if n != "" then n else "Mock Script"
    case None => "Mock Script"
  }

  /** The analyze handler: one INSERT into `script_analysis`, then the fixed result. */
  function AnalyzeStep(t: Tables, userId: Option<string>, originalName: Option<string>, now: int, fault: Option<string>)
    : (Tables, AnalyzeReply)
  {
    var uid := UserIdParam(userId);
    if fault.Some? then (t, AnalyzeFailed("Database save error: " + fault.value))
    else if uid.None? then (t, AnalyzeFailed("Database save error: " + BadIntegerError))
    else if !IsUserId(t.users, uid.value) then (t, AnalyzeFailed("Database save error: " + ForeignKeyError))
    else
      var row := AnalysisRow(t.nextAnalysisId, uid.value, StoredFileName(originalName), StoredTone, StoredRisk,
                             ResultJson(MockResult), now);
      (t.(analyses := t.analyses + [row], nextAnalysisId := t.nextAnalysisId + 1), AnalyzeOk(MockResult, AnalyzeMessage))
  }

  lemma AnalyzeKeepsValid(t: Tables, userId: Option<string>, originalName: Option<string>, now: int, fault: Option<string>)
    requires ValidTables(t)
    ensures ValidTables(AnalyzeStep(t, userId, originalName, now, fault).0)
  {
    var uid := UserIdParam(userId);
    if fault.None? && uid.Some? && IsUserId(t.users, uid.value) {
      var row := AnalysisRow(t.nextAnalysisId, uid.value, StoredFileName(originalName), StoredTone, StoredRisk,
                             ResultJson(MockResult), now);
      InsertAnalysisKeepsValid(t, row);
    }
  }

  /** An INSERT that takes the next AUTO_INCREMENT id and names an existing user keeps every
      constraint. */
  lemma InsertAnalysisKeepsValid(t: Tables, row: AnalysisRow)
    requires ValidTables(t) && row.id == t.nextAnalysisId && IsUserId(t.users, row.userId)
    ensures ValidTables(t.(analyses := t.analyses + [row], nextAnalysisId := t.nextAnalysisId + 1))
  {
    var t' := t.(analyses := t.analyses + [row], nextAnalysisId := t.nextAnalysisId + 1);
    assert forall i :: 0 <= i < |t.analyses| ==> t'.analyses[i] == t.analyses[i];
  }

  /** A successful analysis appends exactly one record with the fixed tone and risk, the
      caller's user id (1 by default) and the uploaded name ('Mock Script' by default), and
      leaves every earlier record and every user as it was. */
  lemma AnalyzeAppendsOneRecord(t: Tables, userId: Option<string>, originalName: Option<string>, now: int)
    requires UserIdParam(userId).Some? && IsUserId(t.users, UserIdParam(userId).value)
    ensures var (t', reply) := AnalyzeStep(t, userId, originalName, now, None);
      && reply.AnalyzeOk?
      && |t'.analyses| == |t.analyses| + 1
      && t'.analyses[..|t.analyses|] == t.analyses
      && t'.users == t.users
      && var row := t'.analyses[|t.analyses|];
         && row.userId == UserIdParam(userId).value
         && (userId.None? || userId == Some("") ==> row.userId == 1)
         && row.fileName == (if originalName.Some? && originalName.value != "" then originalName.value else "Mock Script")
         && row.tone == "Neo-Noir" && row.riskScore == 35
  {
    var t' := AnalyzeStep(t, userId, originalName, now, None).0;
    assert t'.analyses[..|t.analyses|] == t.analyses;
  }

  /** Any failure leaves both tables unchanged. */
  lemma AnalyzeFailureChangesNothing(t: Tables, userId: Option<string>, originalName: Option<string>, now: int, fault: Option<string>)
    ensures var (t', reply) := AnalyzeStep(t, userId, originalName, now, fault);
      reply.AnalyzeFailed? ==> t' == t
    ensures var reply := AnalyzeStep(t, userId, originalName, now, fault).1;
      reply.AnalyzeFailed? <==> fault.Some? || UserIdParam(userId).None? || !IsUserId(t.users, UserIdParam(userId).value)
  {
  }

  /** The text the handler hands to the INSERT, `JSON.stringify(analysisResult)`, parses to
      the very document it was made from, and that document decodes to the result. */
  lemma InsertedTextParses(r: AnalysisResult)
    ensures Parse(Serialize(ResultJson(r))) == Some(ResultJson(r))
    ensures ResultFromJson(ResultJson(r)) == Some(r)
  {
    RoundTrip(ResultJson(r));
    ResultRoundTrip(r);
  }

  /** The reply spreads the result between `success` and `message`: every other key reads as
      in the result document, and `riskScore` in particular as the stored `risk_score`. */
  lemma ReplySpreadsResult(r: AnalysisResult, msg: string)
    ensures forall key :: key != "success" && key != "message" ==>
      Field(Some(AnalyzeBody(AnalyzeOk(r, msg))), key) == Field(Some(ResultJson(r)), key)
    ensures Field(Some(AnalyzeBody(AnalyzeOk(r, msg))), "riskScore") == Some(Num(r.riskScore))
    ensures Field(Some(AnalyzeBody(AnalyzeOk(r, msg))), "success") == Some(Bool(true))
    ensures Field(Some(AnalyzeBody(AnalyzeOk(r, msg))), "message") == Some(Str(msg))
  {
    var pre := [Member("success", Bool(true))];
    var post := [Member("message", Str(msg))];
    var ms := pre + ResultMembers(r) + post;
    forall key | key != "success" && key != "message"
      ensures Field(Some(AnalyzeBody(AnalyzeOk(r, msg))), key) == Field(Some(ResultJson(r)), key)
    {
      LastWithConcat(pre + ResultMembers(r), post, key);
      LastWithConcat(pre, ResultMembers(r), key);
      LastWithAbsent(pre, key);
      LastWithAbsent(post, key);
    }
    LastWithAt(ResultMembers(r), 2, "riskScore");
    assert "riskScore" != "success" && "riskScore" != "message";
    assert |ms| == 6 && ms[0].key == "success" && ms[5].key == "message";
    LastWithAt(ms, 0, "success");
    LastWithAt(ms, 5, "message");
  }

  /** What a successful analysis stores is what it replies: the stored document is the reply's
      result document, and the stored risk score is the reply's `riskScore`. */
  lemma AnalyzeStoredMatchesReply(t: Tables, userId: Option<string>, originalName: Option<string>, now: int)
    requires UserIdParam(userId).Some? && IsUserId(t.users, UserIdParam(userId).value)
    ensures var (t', reply) := AnalyzeStep(t, userId, originalName, now, None);
      var row := t'.analyses[|t'.analyses| - 1];
      && reply.AnalyzeOk?
      && row.analysisData == ResultJson(reply.result)
      && ResultFromJson(row.analysisData) == Some(reply.result)
      && Field(Some(AnalyzeBody(reply)), "riskScore") == Some(Num(row.riskScore))
  {
    ResultRoundTrip(MockResult);
    ReplySpreadsResult(MockResult, AnalyzeMessage);
  }

  // ---------------------------------------------------------------------------------------
  // GET /api/script/history

  /** `ORDER BY created_at DESC`. */
  predicate NewestFirst(rows: seq<AnalysisRow>)
  {
    forall i, j :: 0 <= i < j < |rows| ==> rows[i].createdAt >= rows[j].createdAt
  }

  predicate OwnedBy(uid: Option<int>, row: AnalysisRow)
  {
    uid == Some(row.userId)
  }

  /** The records a `WHERE user_id = ?` selects, in table order. */
  function OwnedRows(rows: seq<AnalysisRow>, uid: Option<int>): seq<AnalysisRow>
  {
    Seqs.Filter(Owner(uid), rows)
  }

  function Owner(uid: Option<int>): AnalysisRow -> bool
  {
    (row: AnalysisRow) => OwnedBy(uid, row)
  }

  /** Selecting over one more record adds that record when it is the user's. */
  lemma OwnedRowsStep(rows: seq<AnalysisRow>, i: nat, uid: Option<int>)
    requires i < |rows|
    ensures OwnedRows(rows[..i + 1], uid) ==
      OwnedRows(rows[..i], uid) + (if OwnedBy(uid, rows[i]) then [rows[i]] else [])
  {
    Seqs.FilterConcat(Owner(uid), rows[..i], [rows[i]]);
    assert rows[..i + 1] == rows[..i] + [rows[i]];
    assert Owner(uid)(rows[i]) == OwnedBy(uid, rows[i]);
  }

  /** Inserting one record into a newest-first list after every record at least as new. */
  function InsertNewestFirst(rows: seq<AnalysisRow>, x: AnalysisRow): (r: seq<AnalysisRow>)
    requires NewestFirst(rows)
    ensures NewestFirst(r)
    ensures multiset(r) == multiset(rows) + multiset{x}
    ensures forall k :: 0 <= k < |r| ==> r[k] == x || r[k] in rows
  {
    if rows == [] then [x]
    else if rows[0].createdAt < x.createdAt then [x] + rows
    else
      var tail := InsertNewestFirst(rows[1..], x);
      assert rows == [rows[0]] + rows[1..];
      HeadStaysNewest(rows, x, tail);
      [rows[0]] + tail
  }

  /** A record at least as new as `x` and as everything after it stays in front. */
  lemma HeadStaysNewest(rows: seq<AnalysisRow>, x: AnalysisRow, tail: seq<AnalysisRow>)
    requires rows != [] && NewestFirst(rows) && x.createdAt <= rows[0].createdAt && NewestFirst(tail)
    requires forall k :: 0 <= k < |tail| ==> tail[k] == x || tail[k] in rows[1..]
    ensures NewestFirst([rows[0]] + tail)
  {
    forall k | 0 <= k < |tail| ensures tail[k].createdAt <= rows[0].createdAt {
      if tail[k] != x {
        var j :| 0 <= j < |rows| - 1 && rows[1..][j] == tail[k];
        assert rows[j + 1] == tail[k];
      }
    }
    var r := [rows[0]] + tail;
    forall i, j | 0 <= i < j < |r| ensures r[i].createdAt >= r[j].createdAt {
      if i > 0 {
        assert r[i] == tail[i - 1] && r[j] == tail[j - 1];
      }
    }
  }

  datatype HistoryReply =
    | HistoryOk(history: seq<AnalysisRow>)
    | HistoryFailed(message: string)

  // ---------------------------------------------------------------------------------------
  // GET /api/dashboard/stats

  datatype Stat = Stat(title: string, value: string, trend: string, color: string, icon: string)

  datatype StatsReply =
    | StatsOk(stats: seq<Stat>)
    | StatsFailed(message: string)

  /** The four stats for the two counts: the counts as `toString()` writes them, then the two
      fixed metrics; every trend, color and icon is fixed. */
  function StatsFor(analysisCount: nat, userCount: nat): seq<Stat>
  {
    [ Stat("Scripts Analyzed", Decimal(analysisCount), "+12%", "var(--primary)", "Brain"),
      Stat("Active Users", Decimal(userCount), "+5%", "var(--secondary)", "Users"),
      Stat("Neural Frames", "1,240", "+18%", "var(--accent)", "Zap"),
      Stat("Rendering Time", "14.2h", "-8%", "#3b82f6", "Clock") ]
  }

  // ---------------------------------------------------------------------------------------
  // POST /api/footage/search

  datatype FootageItem = FootageItem(timestamp: string, description: string, thumbnail: string)

  const FootageLibrary: seq<FootageItem> := [
    FootageItem("00:14:22", "Elias enters the subway with a black coat",
      "https://images.unsplash.com/photo-1514467953516-ec483e58c65f?auto=format&fit=crop&w=400&q=80"),
    FootageItem("00:21:05", "Close up of the mysterious briefcase",
      "https://images.unsplash.com/photo-1543269664-76bc3997d9ea?auto=format&fit=crop&w=400&q=80"),
    FootageItem("01:05:44", "The train departing into the tunnel",
      "https://images.unsplash.com/photo-1474487056269-ac41b32bb398?auto=format&fit=crop&w=400&q=80"),
    FootageItem("00:05:12", "Neon signs flickering in the rain",
      "https://images.unsplash.com/photo-1514565131-fce0801e5785?auto=format&fit=crop&w=400&q=80")
  ]

  predicate MatchesQuery(query: string, item: FootageItem)
  {
    Includes(ToLower(item.description), ToLower(query))
  }

  function Matcher(query: string): FootageItem -> bool
  {
    (item: FootageItem) => MatchesQuery(query, item)
  }

  /** The filter of the search handler over a list of clips. */
  function SearchClips(query: string, clips: seq<FootageItem>): seq<FootageItem>
  {
    Seqs.Filter(Matcher(query), clips)
  }

  function FootageSearch(query: string): seq<FootageItem>
  {
    SearchClips(query, FootageLibrary)
  }

  /** The query occurs at some position of the description, ignoring case. */
  ghost predicate Mentions(description: string, query: string)
  {
    exists k :: OccursAt(ToLower(description), ToLower(query), k)
  }

  /** The search returns, in the clips' order, exactly the clips whose lowercased description
      contains the lowercased query somewhere. */
  lemma SearchClipsExact(query: string, clips: seq<FootageItem>)
    ensures Seqs.IsSubsequence(SearchClips(query, clips), clips)
    ensures forall item :: item in SearchClips(query, clips) <==> item in clips && Mentions(item.description, query)
  {
    var p := Matcher(query);
    Seqs.FilterIsSubsequence(p, clips);
    forall item ensures item in SearchClips(query, clips) <==> item in clips && Mentions(item.description, query) {
      Seqs.FilterMembers(p, clips, item);
      assert p(item) == MatchesQuery(query, item);
      IncludesIffOccurs(ToLower(item.description), ToLower(query));
    }
  }

  /** `includes('')` is true, so an empty query keeps every clip. */
  lemma SearchClipsEmptyQuery(clips: seq<FootageItem>)
    ensures SearchClips("", clips) == clips
  {
    var p := Matcher("");
    forall i | 0 <= i < |clips| ensures p(clips[i]) {
      IncludesEmpty(ToLower(clips[i].description));
    }
    Seqs.FilterKeepsAll(p, clips);
  }

  // ---------------------------------------------------------------------------------------
  // POST /api/creative/intent

  /** A model client is created only for a configured key other than the placeholder. */
  predicate HasModelClient(apiKey: Option<string>)
  {
    apiKey.Some? && apiKey.value != "" && apiKey.value != "your_key_here"
  }

  /** The fixed document sent when no model answer is used; it has no `subtext` member. */
  const IntentFallback := Obj([
    Member("mood", Str("Noir")),
    Member("lighting", Str("Low-key, High contrast")),
    Member("visualTone", Str("Cyberpunk Aesthetic")),
    Member("soundscape", Str("Rhythmic, Industrial"))])

  /** How the model call settles, as seen by the handler: the `create` call (or reading
      `choices[0].message.content`) threw, `JSON.parse` threw on the returned content, or the
      content parsed to a document. */
  datatype ModelCall =
    | CallThrew
    | ContentNotJson
    | ContentParsed(doc: Value)

  /** The intent handler: the parsed model answer when there is a client and the call and the
      parse succeed; the fallback otherwise. */
  function CreativeIntent(apiKey: Option<string>, call: ModelCall): Value
  {
    if HasModelClient(apiKey) && call.ContentParsed? then call.doc else IntentFallback
  }

  /** What reaches the client is the model's document or the fallback. The model's document is
      sent exactly when a client exists and its content parsed; without a client the call is
      never made, and every failure of the call or of the parse ends in the fallback. */
  lemma CreativeIntentFallback(apiKey: Option<string>, call: ModelCall)
    ensures CreativeIntent(apiKey, call) == IntentFallback || (call.ContentParsed? && CreativeIntent(apiKey, call) == call.doc)
    ensures HasModelClient(apiKey) && call.ContentParsed? ==> CreativeIntent(apiKey, call) == call.doc
    ensures !HasModelClient(apiKey) ==> forall other: ModelCall :: CreativeIntent(apiKey, other) == IntentFallback
    ensures !call.ContentParsed? ==> CreativeIntent(apiKey, call) == IntentFallback
  {
  }

  /** The placeholder key counts as no key. */
  lemma PlaceholderKeyHasNoClient(call: ModelCall)
    ensures CreativeIntent(Some("your_key_here"), call) == IntentFallback
  {
  }

  /** The fallback carries mood, lighting, visualTone and soundscape, and no subtext. */
  lemma FallbackHasNoSubtext()
    ensures Field(Some(IntentFallback), "subtext").None?
    ensures Field(Some(IntentFallback), "mood") == Some(Str("Noir"))
    ensures Field(Some(IntentFallback), "soundscape") == Some(Str("Rhythmic, Industrial"))
  {
    var ms := IntentFallback.members;
    assert "subtext"[0] != "soundscape"[1];
    LastWithAbsent(ms, "subtext");
    LastWithAt(ms, 0, "mood");
    LastWithAt(ms, 3, "soundscape");
  }

  // ---------------------------------------------------------------------------------------
  // The store, updated in place

  class Database {
    var users: seq<UserRow>
    var analyses: seq<AnalysisRow>
    var nextUserId: nat
    var nextAnalysisId: nat

    function State(): Tables
      reads this
    {
      Tables(users, analyses, nextUserId, nextAnalysisId)
    }

    predicate Valid()
      reads this
    {
      ValidTables(State())
    }

    /** `initializeDb` on an empty database: both tables created and empty. */
    constructor ()
      ensures State() == EmptyTables && Valid()
    {
      users, analyses, nextUserId, nextAnalysisId := [], [], 1, 1;
    }

    /** The SELECT by email: a scan for the first row whose email has the key of `email`. */
    method FindUser(email: string) returns (found: Option<nat>)
      ensures found == FindByEmail(users, email)
    {
      var key := EmailKey(email);
      var i := 0;
      while i < |users| && EmailKey(users[i].email) != key
        invariant 0 <= i <= |users|
        invariant forall j :: 0 <= j < i ==> EmailKey(users[j].email) != key
      {
        i := i + 1;
      }
      found := if i < |users| then Some(i) else None;
      FindByEmailIsFirst(users, email, found);
    }

    method Login(email: string, password: string, now: int, fault: Option<string>) returns (reply: LoginReply)
      requires Valid()
      modifies this
      ensures Valid()
      ensures (State(), reply) == LoginStep(old(State()), email, password, now, fault)
    {
      LoginKeepsValid(State(), email, password, now, fault);
      if fault.Some? {
        reply := LoginFailed("Database error: " + fault.value);
        return;
      }
      var found := FindUser(email);
      match found {
        case Some(i) =>
          reply := LoginOk(Summary(users[i]), Token);
        case None =>
          var name := LocalPart(email);
          users := users + [UserRow(nextUserId, name, email, password, DefaultRole, now)];
          reply := LoginOk(UserSummary(nextUserId, name, email, DefaultRole), Token);
          nextUserId := nextUserId + 1;
      }
    }

    method Analyze(userId: Option<string>, originalName: Option<string>, now: int, fault: Option<string>)
      returns (reply: AnalyzeReply)
      requires Valid()
      modifies this
      ensures Valid()
      ensures (State(), reply) == AnalyzeStep(old(State()), userId, originalName, now, fault)
    {
      AnalyzeKeepsValid(State(), userId, originalName, now, fault);
      var uid := UserIdParam(userId);
      if fault.Some? {
        reply := AnalyzeFailed("Database save error: " + fault.value);
      } else if uid.None? {
        reply := AnalyzeFailed("Database save error: " + BadIntegerError);
      } else if !IsUserId(users, uid.value) {
        reply := AnalyzeFailed("Database save error: " + ForeignKeyError);
      } else {
        var data := ResultJson(MockResult);
        analyses := analyses + [AnalysisRow(nextAnalysisId, uid.value, StoredFileName(originalName), StoredTone,
                                            StoredRisk, data, now)];
        nextAnalysisId := nextAnalysisId + 1;
        reply := AnalyzeOk(MockResult, AnalyzeMessage);
      }
    }

    /** The history handler: the records of the requested user (1 by default), newest first. */
    method History(userId: Option<string>, fault: Option<string>) returns (reply: HistoryReply)
      ensures fault.Some? ==> reply == HistoryFailed("Database fetch error: " + fault.value)
      ensures fault.None? ==> reply.HistoryOk?
      ensures reply.HistoryOk? ==> NewestFirst(reply.history)
      ensures reply.HistoryOk? ==> multiset(reply.history) == multiset(OwnedRows(analyses, UserIdParam(userId)))
    {
      if fault.Some? {
        return HistoryFailed("Database fetch error: " + fault.value);
      }
      var uid := UserIdParam(userId);
      var rows: seq<AnalysisRow> := [];
      var i := 0;
      while i < |analyses|
        invariant 0 <= i <= |analyses|
        invariant NewestFirst(rows)
        invariant multiset(rows) == multiset(OwnedRows(analyses[..i], uid))
      {
        OwnedRowsStep(analyses, i, uid);
        if OwnedBy(uid, analyses[i]) {
          rows := InsertNewestFirst(rows, analyses[i]);
        }
        i := i + 1;
      }
      assert analyses[..i] == analyses;
      reply := HistoryOk(rows);
    }

    /** The dashboard handler: the two table sizes as decimal strings, plus fixed metrics. */
    method DashboardStats(fault: Option<string>) returns (reply: StatsReply)
      ensures fault.Some? <==> reply.StatsFailed?
      ensures fault.Some? ==> reply.message == "Stats error: " + fault.value
      ensures reply.StatsOk? ==> |reply.stats| == 4
      ensures reply.StatsOk? ==> reply.stats[0].title == "Scripts Analyzed" && reply.stats[1].title == "Active Users"
      ensures reply.StatsOk? ==> ParseDecimal(reply.stats[0].value) == Some(|analyses|)
      ensures reply.StatsOk? ==> ParseDecimal(reply.stats[1].value) == Some(|users|)
      ensures reply.StatsOk? ==> reply.stats[0].value == Decimal(|analyses|) && reply.stats[1].value == Decimal(|users|)
      ensures reply.StatsOk? ==> reply.stats == StatsFor(|analyses|, |users|)
    {
      if fault.Some? {
        return StatsFailed("Stats error: " + fault.value);
      }
      var scripts := |analyses|;
      var accounts := |users|;
      DecimalRoundTrip(scripts);
      DecimalRoundTrip(accounts);
      reply := StatsOk(StatsFor(scripts, accounts));
    }
  }

  /** The result of the scan in `FindUser` is the first match. */
  lemma FindByEmailIsFirst(users: seq<UserRow>, email: string, found: Option<nat>)
    requires found.Some? ==> found.value < |users| && EmailKey(users[found.value].email) == EmailKey(email)
    requires found.Some? ==> forall j :: 0 <= j < found.value ==> EmailKey(users[j].email) != EmailKey(email)
    requires found.None? ==> forall j :: 0 <= j < |users| ==> EmailKey(users[j].email) != EmailKey(email)
    ensures found == FindByEmail(users, email)
  {
    var r := FindByEmail(users, email);
    if found.Some? && r.Some? {
      if found.value < r.value {
      } else if r.value < found.value {
      }
    }
  }
}
