/** The document-store wrappers: user profiles (create versus merge, null
    when missing) and mood check-ins (one document per user and day, the
    "today" query). Collections are maps from document id to document; the
    store's write time, the app server's local calendar day (these wrappers
    run as server actions) and whether the store answered are inputs. */
module FirebaseService {
  import opened Wrappers
  import Strings
  import InnerWeatherSchema

  /** Why a store operation threw: the store handle was never initialised,
      or the store call itself failed. */
  datatype ServiceError = NotInitialized | StoreFailure

  // ----- Calendar days and mood document ids -----

  /** A calendar day as the app server's local clock reports it: full year, month
      counted from 0, day of the month. */
  datatype Day = Day(year: int, month: int, date: int)

  predicate ValidDay(d: Day) {
    0 <= d.month < 12 && 1 <= d.date <= 31
  }

  /** `YYYY-MM-DD`: the month is shifted to count from 1; month and day are
      padded to two digits, the year is printed as is. */
  function DateString(d: Day): string
    requires ValidDay(d)
  {
    Strings.IntString(d.year) + "-" + Strings.Pad2(d.month + 1) + "-" + Strings.Pad2(d.date)
  }

  /** The id of a user's check-in for a day: `userId_YYYY-MM-DD`. */
  function MoodDocId(userId: string, d: Day): string
    requires ValidDay(d)
  {
    userId + "_" + DateString(d)
  }

  /** Reading a `YYYY-MM-DD` string back as a day. */
  function ParseDate(s: string): Option<Day> {
    if |s| == 10 && s[4] == '-' && s[7] == '-'
       && Strings.AllDigits(s[..4]) && Strings.AllDigits(s[5..7]) && Strings.AllDigits(s[8..])
    then Some(Day(Strings.ParseNat(s[..4]), Strings.ParseNat(s[5..7]) - 1, Strings.ParseNat(s[8..])))
    else None
  }

  /** Reading an id back: the user part and the day, when the id ends in
      `_` followed by a well-formed date. */
  function ParseMoodDocId(id: string): Option<(string, Day)> {
    if |id| < 11 || id[|id| - 11] != '_' then None
    else match ParseDate(id[|id| - 10..])
      case Some(d) => Some((id[..|id| - 11], d))
      case None => None
  }

  /** Where the three parts of `Y-M-D` sit in the joined string. */
  lemma DateParts(y: string, m: string, dd: string)
    requires |y| == 4 && |m| == 2 && |dd| == 2
    ensures var s := y + "-" + m + "-" + dd;
      |s| == 10 && s[4] == '-' && s[7] == '-' && s[..4] == y && s[5..7] == m && s[8..] == dd
  {
    var ym := y + "-" + m;
    assert ym[..4] == y && ym[5..] == m;
    var s := ym + "-" + dd;
    assert s[..7] == ym && s[8..] == dd;
    assert s[..4] == ym[..4] && s[5..7] == ym[5..];
  }

  /** Any string shaped `YYYY-MM-DD` (digits in the date positions) reads
      back as that date. */
  lemma ParseDateShape(y: string, m: string, dd: string)
    requires |y| == 4 && |m| == 2 && |dd| == 2
    requires Strings.AllDigits(y) && Strings.AllDigits(m) && Strings.AllDigits(dd)
    ensures ParseDate(y + "-" + m + "-" + dd)
      == Some(Day(Strings.ParseNat(y), Strings.ParseNat(m) - 1, Strings.ParseNat(dd)))
  {
    DateParts(y, m, dd);
  }

  /** For four-digit years the date string reads back as the day. */
  lemma DateStringRoundTrip(d: Day)
    requires ValidDay(d) && 1000 <= d.year <= 9999
    ensures |DateString(d)| == 10
    ensures ParseDate(DateString(d)) == Some(d)
  {
    Strings.NatStringFourDigits(d.year);
    Strings.ParseNatString(d.year);
    Strings.Pad2RoundTrip(d.month + 1);
    Strings.Pad2RoundTrip(d.date);
    ParseDateShape(Strings.NatString(d.year), Strings.Pad2(d.month + 1), Strings.Pad2(d.date));
  }

  /** For four-digit years the id can be read back: it names its user and its
      day unambiguously. */
  lemma MoodDocIdRoundTrip(userId: string, d: Day)
    requires ValidDay(d) && 1000 <= d.year <= 9999
    ensures ParseMoodDocId(MoodDocId(userId, d)) == Some((userId, d))
  {
    DateStringRoundTrip(d);
    var id := MoodDocId(userId, d);
    assert id[..|id| - 11] == userId;
    assert id[|id| - 10..] == DateString(d);
  }

  /** Different users or different days never share a check-in document
      (for four-digit years). */
  lemma MoodDocIdInjective(u1: string, d1: Day, u2: string, d2: Day)
    requires ValidDay(d1) && 1000 <= d1.year <= 9999
    requires ValidDay(d2) && 1000 <= d2.year <= 9999
    requires MoodDocId(u1, d1) == MoodDocId(u2, d2)
    ensures u1 == u2 && d1 == d2
  {
    MoodDocIdRoundTrip(u1, d1);
    MoodDocIdRoundTrip(u2, d2);
  }

  // ----- Mood check-ins -----

  /** A stored check-in: the form data, the owner, and the server time it was written. */
  datatype MoodRecord = MoodRecord(form: InnerWeatherSchema.InnerWeatherForm, uid: string, date: int)

  type MoodStore = map<string, MoodRecord>

  /** `saveMoodEntry`: writes the user's document for today, replacing
      whatever was there (no merge). */
  function SaveMoodEntry(db: bool, store: MoodStore, userId: string, data: InnerWeatherSchema.InnerWeatherForm,
                         today: Day, serverNow: int, storeUp: bool): (r: Result<MoodStore, ServiceError>)
    requires ValidDay(today)
    ensures !db ==> r == Err(NotInitialized)
    ensures db && !storeUp ==> r == Err(StoreFailure)
    ensures r.Ok? <==> db && storeUp
    ensures r.Ok? ==>
      && r.value.Keys == store.Keys + {MoodDocId(userId, today)}
      && r.value[MoodDocId(userId, today)] == MoodRecord(data, userId, serverNow)
      && forall k :: k in store && k != MoodDocId(userId, today) ==> r.value[k] == store[k]
  {
    if !db then Err(NotInitialized)
    else if !storeUp then Err(StoreFailure)
    else Ok(store[MoodDocId(userId, today) := MoodRecord(data, userId, serverNow)])
  }

  /** Two saves by one user on one day land on the same document: the second
      replaces the first entirely and the collection does not grow. */
  lemma SameDaySavesOverwrite(store: MoodStore, userId: string, a: InnerWeatherSchema.InnerWeatherForm,
                              b: InnerWeatherSchema.InnerWeatherForm, today: Day, t1: int, t2: int)
    requires ValidDay(today)
    ensures var first := SaveMoodEntry(true, store, userId, a, today, t1, true).value;
      var second := SaveMoodEntry(true, first, userId, b, today, t2, true).value;
      && second[MoodDocId(userId, today)] == MoodRecord(b, userId, t2)
      && second.Keys == first.Keys
  {
  }

  /** The "today" query window: from the start of today (inclusive) to the
      start of the next day (exclusive). */
  datatype DayWindow = DayWindow(start: int, end: int)

  predicate InWindow(w: DayWindow, t: int) {
    w.start <= t < w.end
  }

  /** A check-in of `userId` written inside the window. */
  predicate LoggedIn(r: MoodRecord, userId: string, w: DayWindow) {
    r.uid == userId && InWindow(w, r.date)
  }

  /** Some stored check-in of the user falls in the window. */
  predicate HasEntryInWindow(store: MoodStore, userId: string, w: DayWindow) {
    exists id :: id in store && LoggedIn(store[id], userId, w)
  }

  /** The window is half-open: a check-in written exactly at the start of the
      next day counts for that day and not for today. */
  lemma WindowHalfOpen(r: MoodRecord, userId: string, today: DayWindow, tomorrow: DayWindow)
    requires today.end == tomorrow.start && tomorrow.start < tomorrow.end
    requires r.uid == userId && r.date == today.end
    ensures !LoggedIn(r, userId, today) && LoggedIn(r, userId, tomorrow)
  {
  }

  /** What the "today" query answers: an error when the store is missing or
      fails, else whether the user has a check-in in the window. */
  function TodayQuery(db: bool, store: MoodStore, userId: string, w: DayWindow, storeUp: bool): Result<bool, ServiceError> {
    if !db then Err(NotInitialized)
    else if !storeUp then Err(StoreFailure)
    else Ok(HasEntryInWindow(store, userId, w))
  }

  /** `hasMoodEntryForToday`: scans the collection for a check-in of the
      user inside the window. */
  method HasMoodEntryForToday(db: bool, store: MoodStore, userId: string, w: DayWindow, storeUp: bool)
    returns (r: Result<bool, ServiceError>)
    ensures !db ==> r == Err(NotInitialized)
    ensures db && !storeUp ==> r == Err(StoreFailure)
    ensures db && storeUp ==> r.Ok? && (r.value <==> HasEntryInWindow(store, userId, w))
    ensures r == TodayQuery(db, store, userId, w, storeUp)
  {
    if !db {
      return Err(NotInitialized);
    }
    if !storeUp {
      return Err(StoreFailure);
    }
    var remaining := store.Keys;
    var found := false;
    while remaining != {}
      invariant remaining <= store.Keys
      invariant found <==> exists id :: id in store.Keys - remaining && LoggedIn(store[id], userId, w)
      decreases remaining
    {
      var id :| id in remaining;
      if LoggedIn(store[id], userId, w) {
        found := true;
      }
      remaining := remaining - {id};
    }
    return Ok(found);
  }

  // ----- Profiles -----

  /** A field value of a stored document. */
  datatype FieldValue =
    | Text(s: string)
    | Number(n: int)
    | Flag(b: bool)
    | Texts(ss: seq<string>)
    | Numbers(ns: seq<int>)
    | Entry(enabled: bool, value: string)
    | Time(t: int)

  /** A document: field name to value. */
  type Doc = map<string, FieldValue>

  type ProfileStore = map<string, Doc>

  const CreatedAt: string := "createdAt"
  const UpdatedAt: string := "updatedAt"

  /** `getUserProfile`: the stored document, or `None` when there is none. */
  function GetUserProfile(db: bool, store: ProfileStore, userId: string, storeUp: bool): (r: Result<Option<Doc>, ServiceError>)
    ensures !db ==> r == Err(NotInitialized)
    ensures db && !storeUp ==> r == Err(StoreFailure)
    ensures r.Ok? <==> db && storeUp
    ensures r.Ok? ==> (r.value.None? <==> userId !in store)
    ensures r.Ok? && r.value.Some? ==> r.value.value == store[userId]
  {
    if !db then Err(NotInitialized)
    else if !storeUp then Err(StoreFailure)
    else if userId in store then Ok(Some(store[userId]))
    else Ok(None)
  }

  /** `saveUserProfile`: an existing document is merged with the data and
      gets a new `updatedAt`; a new one gets the data with both `createdAt`
      and `updatedAt` set. */
  function SaveUserProfile(db: bool, store: ProfileStore, userId: string, data: Doc, serverNow: int, storeUp: bool)
    : (r: Result<ProfileStore, ServiceError>)
    ensures !db ==> r == Err(NotInitialized)
    ensures db && !storeUp ==> r == Err(StoreFailure)
    ensures r.Ok? <==> db && storeUp
    ensures r.Ok? ==> r.value.Keys == store.Keys + {userId}
    ensures r.Ok? ==> forall k :: k in store && k != userId ==> r.value[k] == store[k]
    // Either way the data's fields are written and `updatedAt` is now.
    ensures r.Ok? ==> UpdatedAt in r.value[userId] && r.value[userId][UpdatedAt] == Time(serverNow)
    ensures r.Ok? ==> forall f :: f in data && f != UpdatedAt && (userId in store || f != CreatedAt) ==>
      f in r.value[userId] && r.value[userId][f] == data[f]
    // Merge: fields the data does not mention keep their stored value.
    ensures r.Ok? && userId in store ==>
      forall f :: f in store[userId] && f !in data && f != UpdatedAt ==>
        f in r.value[userId] && r.value[userId][f] == store[userId][f]
    ensures r.Ok? && userId in store ==> r.value[userId].Keys == store[userId].Keys + data.Keys + {UpdatedAt}
    // Create: exactly the data's fields plus both timestamps, equal to now.
    ensures r.Ok? && userId !in store ==>
      && r.value[userId].Keys == data.Keys + {CreatedAt, UpdatedAt}
      && r.value[userId][CreatedAt] == Time(serverNow)
  {
    if !db then Err(NotInitialized)
    else if !storeUp then Err(StoreFailure)
    else if userId in store then
      Ok(store[userId := store[userId] + (data[UpdatedAt := Time(serverNow)])])
    else
      Ok(store[userId := data[CreatedAt := Time(serverNow)][UpdatedAt := Time(serverNow)]])
  }

  /** Saving and then reading back gives a document carrying every field of
      the saved data (the timestamps aside). */
  lemma SaveThenGetProfile(store: ProfileStore, userId: string, data: Doc, serverNow: int)
    ensures var saved := SaveUserProfile(true, store, userId, data, serverNow, true).value;
      var got := GetUserProfile(true, saved, userId, true);
      && got.Ok? && got.value.Some?
      && forall f :: f in data && f != CreatedAt && f != UpdatedAt ==> f in got.value.value && got.value.value[f] == data[f]
  {
  }

  /** A profile keeps the creation time of its first save across later
      saves whose data does not carry `createdAt`. */
  lemma CreatedAtSurvivesUpdates(store: ProfileStore, userId: string, first: Doc, later: Doc, t1: int, t2: int)
    requires userId !in store
    requires CreatedAt !in later
    ensures var s1 := SaveUserProfile(true, store, userId, first, t1, true).value;
      var s2 := SaveUserProfile(true, s1, userId, later, t2, true).value;
      && s2[userId][CreatedAt] == Time(t1)
      && s2[userId][UpdatedAt] == Time(t2)
  {
  }
}
