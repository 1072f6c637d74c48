/** The admin dashboard: how fetched room rows are normalised for the table, the
    room count shown in the stats, the capacity indicator, and how the answers to the
    VIP-room prompts become the row that is inserted.

    The database, the prompts, the clock and the random room code and id are
    parameters: a prompt answer is `None` when cancelled. Times are milliseconds since
    the epoch. */
module AdminPanel {
  import opened Wrappers
  import opened Text

  // ---------------------------------------------------------------- numbers

  /** A JavaScript number as far as the prompts produce one: an integer, or `NaN`. */
  datatype JsNumber = Int(value: int) | NaN

  /** A decimal integer literal with an optional sign. */
  predicate IsIntegerLiteral(t: string) {
    if |t| > 0 && (t[0] == '+' || t[0] == '-') then |t| > 1 && AllDigits(t[1..])
    else |t| > 0 && AllDigits(t)
  }

  /** The value of an integer literal. */
  function LiteralValue(t: string): int
    requires IsIntegerLiteral(t)
  {
    if t[0] == '-' then -(DigitsValue(t[1..]) as int)
    else if t[0] == '+' then DigitsValue(t[1..])
    else DigitsValue(t)
  }

  /** `Number(s)` for strings that are blank or an integer literal after trimming:
      blank is 0, an integer literal is its value, anything else is `NaN`. */
  function ToNumber(s: string): (r: JsNumber)
    ensures IsBlank(s) ==> r == Int(0)
    ensures r == NaN <==> !IsBlank(s) && !IsIntegerLiteral(Trim(s))
  {
    TrimEmptyIffBlank(s);
    var t := Trim(s);
    if t == "" then Int(0)
    else if !IsIntegerLiteral(t) then NaN
    else Int(LiteralValue(t))
  }

  /** Reading a printed whole number back gives the number. */
  lemma ToNumberReadsNat(n: nat)
    ensures ToNumber(NatToString(n)) == Int(n)
  {
    var s := NatToString(n);
    PrintedIsLiteral(n);
    NatToStringRoundTrip(n);
    TrimEmptyIffBlank(s);
    assert !IsBlank(s);
    assert LiteralValue(s) == DigitsValue(s) == n;
  }

  lemma PrintedIsLiteral(n: nat)
    ensures var s := NatToString(n);
            Trim(s) == s && s != "" && IsIntegerLiteral(s) && s[0] != '-' && s[0] != '+'
  {
    NatToStringRoundTrip(n);
    DigitsAreLiteral(NatToString(n));
  }

  lemma DigitsAreLiteral(s: string)
    requires s != "" && AllDigits(s)
    ensures Trim(s) == s && IsIntegerLiteral(s) && s[0] != '-' && s[0] != '+'
  {
    DigitNotWhitespace(s[0]);
    DigitNotWhitespace(s[|s| - 1]);
    TrimKeepsEnds(s);
  }

  lemma DigitNotWhitespace(c: char)
    requires IsDigit(c)
    ensures !IsWhitespace(c)
  {
  }

  predicate NumberTruthy(n: JsNumber) {
    n.Int? && n.value != 0
  }

  // ---------------------------------------------------------------- room rows

  /** A row as the database returns it, with the two aggregate count lists. */
  datatype RawRoom = RawRoom(
    id: string,
    roomCode: string,
    title: Option<string>,
    hostId: Option<string>,
    participantCounts: seq<int>,
    fileCounts: seq<int>,
    maxUsers: Option<int>,
    maxFiles: Option<int>,
    createdAt: string,
    expiresAt: Option<string>,
    isVip: Option<bool>)

  /** A row as the table shows it. */
  datatype Room = Room(
    id: string,
    roomCode: string,
    title: string,
    hostName: string,
    userCount: int,
    maxUsers: int,
    fileCount: int,
    maxFiles: int,
    createdAt: string,
    expiresAt: Option<string>,
    isVip: bool)

  predicate TextTruthy(s: Option<string>) {
    s.Some? && s.value != ""
  }

  predicate IntTruthy(n: Option<int>) {
    n.Some? && n.value != 0
  }

  /** The first aggregate count, or 0. */
  function FirstCount(counts: seq<int>): int {
    if |counts| > 0 && counts[0] != 0 then counts[0] else 0
  }

  /** One row of `formattedRooms`. */
  function FormatRoom(raw: RawRoom): (r: Room)
    ensures r.id == raw.id && r.roomCode == raw.roomCode
    ensures r.createdAt == raw.createdAt && r.expiresAt == raw.expiresAt
    ensures r.title == (if TextTruthy(raw.title) then raw.title.value else "Untitled Room")
    ensures r.hostName == (if TextTruthy(raw.hostId) then raw.hostId.value else "Unknown")
    ensures r.userCount == (if |raw.participantCounts| > 0 then raw.participantCounts[0] else 0)
    ensures r.fileCount == (if |raw.fileCounts| > 0 then raw.fileCounts[0] else 0)
    ensures r.isVip <==> raw.isVip == Some(true)
    ensures r.maxUsers == (if IntTruthy(raw.maxUsers) then raw.maxUsers.value else if r.isVip then 20 else 5)
    ensures r.maxFiles == (if IntTruthy(raw.maxFiles) then raw.maxFiles.value else if r.isVip then 10 else 3)
  {
    var isVip := raw.isVip == Some(true);
    Room(
      raw.id,
      raw.roomCode,
      if TextTruthy(raw.title) then raw.title.value else "Untitled Room",
      if TextTruthy(raw.hostId) then raw.hostId.value else "Unknown",
      FirstCount(raw.participantCounts),
      if IntTruthy(raw.maxUsers) then raw.maxUsers.value else if isVip then 20 else 5,
      FirstCount(raw.fileCounts),
      if IntTruthy(raw.maxFiles) then raw.maxFiles.value else if isVip then 10 else 3,
      raw.createdAt,
      raw.expiresAt,
      isVip)
  }

  /** `roomsData?.map(...) || []`: every fetched row in order, none when nothing came
      back. */
  function FormatRooms(rows: Option<seq<RawRoom>>): (r: seq<Room>)
    ensures rows.None? ==> r == []
    ensures rows.Some? ==> |r| == |rows.value|
    ensures rows.Some? ==> forall i :: 0 <= i < |r| ==> r[i] == FormatRoom(rows.value[i])
  {
    if rows.None? then [] else FormatAll(rows.value)
  }

  function FormatAll(rows: seq<RawRoom>): (r: seq<Room>)
    ensures |r| == |rows|
    ensures forall i :: 0 <= i < |r| ==> r[i] == FormatRoom(rows[i])
    decreases |rows|
  {
    if rows == [] then [] else [FormatRoom(rows[0])] + FormatAll(rows[1..])
  }

  /** Formatting keeps one row per fetched row, in the same order, so the ids come out
      as they went in. */
  lemma FormatKeepsIds(rows: seq<RawRoom>)
    ensures Ids(FormatAll(rows)) == RawIds(rows)
  {
    var f := FormatAll(rows);
    assert |Ids(f)| == |RawIds(rows)|;
    assert forall i :: 0 <= i < |f| ==> Ids(f)[i] == f[i].id == rows[i].id == RawIds(rows)[i];
  }

  function Ids(rooms: seq<Room>): seq<string> {
    seq(|rooms|, i requires 0 <= i < |rooms| => rooms[i].id)
  }

  function RawIds(rows: seq<RawRoom>): seq<string> {
    seq(|rows|, i requires 0 <= i < |rows| => rows[i].id)
  }

  /** A usage cell is drawn as full when the count has reached the maximum. */
  predicate IsFull(count: int, max: int) {
    count >= max
  }

  /** The capacities a row shows are positive unless a negative one was stored, so a
      room that nobody has joined and that holds no files is never shown as full. */
  lemma EmptyRoomNotFull(raw: RawRoom)
    requires raw.maxUsers.None? || raw.maxUsers.value >= 0
    requires raw.maxFiles.None? || raw.maxFiles.value >= 0
    requires FirstCount(raw.participantCounts) == 0 && FirstCount(raw.fileCounts) == 0
    ensures FormatRoom(raw).maxUsers > 0 && FormatRoom(raw).maxFiles > 0
    ensures !IsFull(FormatRoom(raw).userCount, FormatRoom(raw).maxUsers)
    ensures !IsFull(FormatRoom(raw).fileCount, FormatRoom(raw).maxFiles)
  {
  }

  /** With no stored capacity, a room's user cell turns full at 20 users for a VIP room
      and at 5 otherwise, and its file cell at 10 and 3 files. */
  lemma DefaultCapacityFull(raw: RawRoom)
    requires !IntTruthy(raw.maxUsers) && !IntTruthy(raw.maxFiles)
    ensures IsFull(FormatRoom(raw).userCount, FormatRoom(raw).maxUsers) <==>
              FirstCount(raw.participantCounts) >= if raw.isVip == Some(true) then 20 else 5
    ensures IsFull(FormatRoom(raw).fileCount, FormatRoom(raw).maxFiles) <==>
              FirstCount(raw.fileCounts) >= if raw.isVip == Some(true) then 10 else 3
  {
  }

  // ---------------------------------------------------------------- the dashboard

  /** The rooms and the counters shown on the dashboard. */
  class Dashboard {
    var rooms: seq<Room>
    var activeRooms: int
    var totalUsers: int
    var loading: bool

    /** The room counter always counts the rows of the table. */
    ghost predicate Valid()
      reads this
    {
      activeRooms == |rooms|
    }

    constructor ()
      ensures Valid() && rooms == [] && activeRooms == 0 && totalUsers == 0 && loading
    {
      rooms := [];
      activeRooms := 0;
      totalUsers := 0;
      loading := true;
    }

    /** One `fetchData` round: on a failed room query the table and the counters are
        kept; otherwise they are replaced by the formatted rows, their count and the
        participant total (0 when absent). Loading ends either way. */
    method FetchData(fetched: Result<Option<seq<RawRoom>>, string>, participantTotal: Option<int>)
      requires Valid()
      modifies this
      ensures Valid() && !loading
      ensures fetched.Err? ==> rooms == old(rooms) && totalUsers == old(totalUsers)
      ensures fetched.Ok? ==> rooms == FormatRooms(fetched.value)
      ensures fetched.Ok? ==> totalUsers == (if IntTruthy(participantTotal) then participantTotal.value else 0)
    {
      loading := true;
      if fetched.Ok? {
        var formatted := FormatRooms(fetched.value);
        rooms := formatted;
        activeRooms := |formatted|;
        totalUsers := if IntTruthy(participantTotal) then participantTotal.value else 0;
      }
      loading := false;
    }
  }

  // ---------------------------------------------------------------- VIP rooms

  /** A capacity prompt: a cancelled or empty answer takes the default, anything else
      is converted with `Number`. */
  function CapacityAnswer(answer: Option<string>, default: nat): (r: JsNumber)
    ensures answer.None? || answer == Some("") ==> r == Int(default)
    ensures answer.Some? && answer.value != "" ==> r == ToNumber(answer.value)
  {
    if TextTruthy(answer) then ToNumber(answer.value) else Int(default)
  }

  /** The expiry prompt: an empty answer means never; any other answer, a cancelled one
      included, is `Number(answer)`, with 0 and `NaN` replaced by 30 minutes. */
  function ExpiryMinutes(answer: Option<string>): (r: Option<int>)
    ensures r.None? <==> answer == Some("")
    ensures r.Some? ==> r.value != 0
    ensures answer.None? ==> r == Some(30)
    ensures answer.Some? && answer.value != "" && NumberTruthy(ToNumber(answer.value)) ==>
              r == Some(ToNumber(answer.value).value)
    ensures answer.Some? && answer.value != "" && !NumberTruthy(ToNumber(answer.value)) ==> r == Some(30)
  {
    if answer == Some("") then None
    else
      var n := if answer.None? then Int(0) else ToNumber(answer.value);
      if NumberTruthy(n) then Some(n.value) else Some(30)
  }

  /** The expiry instant, `now` plus the minutes; none iff the room never expires. */
  function ExpiresAt(minutes: Option<int>, now: int): (r: Option<int>)
    ensures r.None? <==> minutes.None?
    ensures r.Some? ==> r.value == now + minutes.value * 60 * 1000
  {
    match minutes
    case None => None
    case Some(m) => Some(now + m * 60 * 1000)
  }

  /** The admin account used as host when the lookup finds nobody. */
  const FallbackHost := "00000000-0000-0000-0000-000000000000"

  /** The row `createVIPRoom` inserts. */
  datatype VipInsert = VipInsert(
    id: string,
    roomCode: string,
    title: string,
    hostId: string,
    activityType: string,
    isLive: bool,
    isVip: bool,
    expiresAt: Option<int>,
    maxUsers: JsNumber,
    maxFiles: JsNumber)

  /** The prompts' answers, the profile lookup's id (if any), the clock and the
      generated code and id, turned into the row to insert; `None` when the host
      answer is cancelled or blank, in which case nothing else is asked. */
  function VipRequest(hostAnswer: Option<string>, usersAnswer: Option<string>, filesAnswer: Option<string>,
                      expiryAnswer: Option<string>, foundId: Option<string>, now: int,
                      code: string, roomId: string): (r: Option<VipInsert>)
    ensures r.None? <==> hostAnswer.None? || IsBlank(hostAnswer.value)
    ensures r.Some? ==>
              && r.value.title == hostAnswer.value + "'s VIP Room"
              && r.value.hostId == (if TextTruthy(foundId) then foundId.value else FallbackHost)
              && r.value.isVip && r.value.isLive && r.value.activityType == "movie"
              && r.value.maxUsers == CapacityAnswer(usersAnswer, 20)
              && r.value.maxFiles == CapacityAnswer(filesAnswer, 10)
              && r.value.expiresAt == ExpiresAt(ExpiryMinutes(expiryAnswer), now)
              && r.value.id == roomId && r.value.roomCode == code
  {
    // `!hostName.trim()`: the trimmed answer is empty exactly when it is blank (TrimEmptyIffBlank)
    if hostAnswer.None? || IsBlank(hostAnswer.value) then None
    else
      var maxUsers := CapacityAnswer(usersAnswer, 20);
      var maxFiles := CapacityAnswer(filesAnswer, 10);
      var minutes := ExpiryMinutes(expiryAnswer);
      Some(VipInsert(roomId, code, hostAnswer.value + "'s VIP Room",
        if TextTruthy(foundId) then foundId.value else FallbackHost,
        "movie", true, true, ExpiresAt(minutes, now), maxUsers, maxFiles))
  }

  lemma CapacityTyped(u: nat, default: nat)
    ensures CapacityAnswer(Some(NatToString(u)), default) == Int(u)
  {
    NatToStringRoundTrip(u);
    ToNumberReadsNat(u);
  }

  lemma ExpiryTyped(m: nat)
    ensures ExpiryMinutes(Some(NatToString(m))) == Some(if m == 0 then 30 else m)
  {
    NatToStringRoundTrip(m);
    ToNumberReadsNat(m);
  }

  /** Typed whole-number capacities are taken as they are. */
  lemma TypedCapacitiesKept(host: string, u: nat, f: nat, expiry: Option<string>, foundId: Option<string>,
                            now: int, code: string, roomId: string)
    requires !IsBlank(host)
    ensures var r := VipRequest(Some(host), Some(NatToString(u)), Some(NatToString(f)), expiry, foundId, now, code, roomId);
            r.Some? && r.value.maxUsers == Int(u) && r.value.maxFiles == Int(f)
  {
    CapacityTyped(u, 20);
    CapacityTyped(f, 10);
  }

  /** A typed whole number of minutes sets the expiry that many minutes from now,
      except that 0 minutes becomes 30. */
  lemma TypedExpiryKept(host: string, users: Option<string>, files: Option<string>, m: nat, foundId: Option<string>,
                        now: int, code: string, roomId: string)
    requires !IsBlank(host)
    ensures var r := VipRequest(Some(host), users, files, Some(NatToString(m)), foundId, now, code, roomId);
            r.Some? && r.value.expiresAt == Some(now + (if m == 0 then 30 else m) * 60 * 1000)
  {
    var typed := NatToString(m);
    var r := VipRequest(Some(host), users, files, Some(typed), foundId, now, code, roomId);
    assert r.Some? && r.value.expiresAt == ExpiresAt(ExpiryMinutes(Some(typed)), now);
    ExpiryTyped(m);
    ExpiresAtMinutes(if m == 0 then 30 else m, now);
  }

  lemma ExpiresAtMinutes(m: int, now: int)
    ensures ExpiresAt(Some(m), now) == Some(now + m * 60 * 1000)
  {
  }
}
