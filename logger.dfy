/** The front-end structured logger (src/lib/logger.ts): entry construction
    with optional fields, the key/value rendering of an entry, and the list of
    recent entries kept under the `app_logs` storage key, cut to the last 100.
    Console output, the JSON text layout and the storage engine itself are not
    part of this model. */
module Logging {
  import opened Wrappers
  import opened Strings

  datatype LogLevel = ERROR | WARN | INFO | DEBUG

  /** The string value of each `LogLevel` member. */
  function LevelName(l: LogLevel): string {
    match l
    case ERROR => "error"
    case WARN => "warn"
    case INFO => "info"
    case DEBUG => "debug"
  }

  function LevelFromName(s: string): (l: Option<LogLevel>)
    ensures l.Some? ==> LevelName(l.value) == s
  {
    if s == "error" then Some(ERROR)
    else if s == "warn" then Some(WARN)
    else if s == "info" then Some(INFO)
    else if s == "debug" then Some(DEBUG)
    else None
  }

  /** Level names are distinct, so a name gives its level back. */
  lemma LevelNameRoundTrip(l: LogLevel)
    ensures LevelFromName(LevelName(l)) == Some(l)
  {
  }

  /** The `name`, `message` and `stack` copied out of an `Error`. */
  datatype ErrorInfo = ErrorInfo(name: string, message: string, stack: Option<string>)

  /** `Record<string, any>`, with every value taken as its rendered text. */
  type Metadata = map<string, string>

  /** `LogEntry`: the four optional fields are absent or present. */
  datatype LogEntry = LogEntry(
    level: LogLevel,
    message: string,
    timestamp: string,
    userId: Option<string>,
    component: Option<string>,
    error: Option<ErrorInfo>,
    metadata: Option<Metadata>)

  /** JavaScript truthiness of an optional string: present and non-empty.
      An `Error` or a metadata object, when given, is always truthy. */
  predicate Truthy(s: Option<string>) {
    s.Some? && s.value != ""
  }

  /** `{...(x && { key: x })}`: the value when truthy, otherwise nothing. */
  function IfTruthy(s: Option<string>): (r: Option<string>)
    ensures r.Some? <==> Truthy(s)
    ensures r.Some? ==> r == s
  {
    if Truthy(s) then s else None
  }

  /** The entry `log` builds: level, message and the caller's clock reading,
      plus `userId`, `component`, `error` and `metadata` only when given. */
  function MakeEntry(level: LogLevel, message: string, now: string, error: Option<ErrorInfo>,
                     metadata: Option<Metadata>, component: Option<string>, userId: Option<string>): (e: LogEntry)
    ensures e.level == level && e.message == message && e.timestamp == now
    ensures e.userId.Some? <==> Truthy(userId)
    ensures e.component.Some? <==> Truthy(component)
    ensures e.userId.Some? ==> e.userId == userId
    ensures e.component.Some? ==> e.component == component
    ensures e.error == error && e.metadata == metadata
  {
    LogEntry(level, message, now, IfTruthy(userId), IfTruthy(component), error, metadata)
  }

  // ---------------------------------------------------------------------------
  // formatLogEntry
  // ---------------------------------------------------------------------------

  datatype Key = LevelKey | MessageKey | TimestampKey | UserIdKey | ComponentKey | ErrorKey | MetadataKey

  /** The JSON property name of each key. */
  function KeyName(k: Key): string {
    match k
    case LevelKey => "level"
    case MessageKey => "message"
    case TimestampKey => "timestamp"
    case UserIdKey => "userId"
    case ComponentKey => "component"
    case ErrorKey => "error"
    case MetadataKey => "metadata"
  }

  datatype Rendered = Text(text: string) | ErrorObject(info: ErrorInfo) | Object(fields: Metadata)

  /** A property of the object handed to `JSON.stringify`, in insertion order. */
  datatype Member = Member(key: Key, value: Rendered)

  function Keys(ms: seq<Member>): (ks: seq<Key>)
    ensures |ks| == |ms| && forall i :: 0 <= i < |ms| ==> ks[i] == ms[i].key
  {
    seq(|ms|, i requires 0 <= i < |ms| => ms[i].key)
  }

  /** `{ key: value }` when the value is present, `{}` otherwise. */
  function Optional(k: Key, v: Option<Rendered>): (ms: seq<Member>)
    ensures Keys(ms) == if v.Some? then [k] else []
    ensures forall m :: m in ms ==> v.Some? && m == Member(k, v.value)
  {
    if v.Some? then [Member(k, v.value)] else []
  }

  function TextOf(s: Option<string>): Option<Rendered> {
    if s.Some? then Some(Text(s.value)) else None
  }

  function ErrorOf(e: Option<ErrorInfo>): Option<Rendered> {
    if e.Some? then Some(ErrorObject(e.value)) else None
  }

  function ObjectOf(m: Option<Metadata>): Option<Rendered> {
    if m.Some? then Some(Object(m.value)) else None
  }

  /** The members `formatLogEntry` always writes, in order. */
  function BaseMembers(e: LogEntry): seq<Member> {
    [Member(LevelKey, Text(LevelName(e.level))), Member(MessageKey, Text(e.message)),
     Member(TimestampKey, Text(e.timestamp))]
  }

  /** The members written only when their field is present. */
  function OptionalMembers(e: LogEntry): seq<Member> {
    Optional(UserIdKey, TextOf(IfTruthy(e.userId)))
    + (Optional(ComponentKey, TextOf(IfTruthy(e.component)))
       + (Optional(ErrorKey, ErrorOf(e.error))
          + Optional(MetadataKey, ObjectOf(e.metadata))))
  }

  /** `formatLogEntry` before the text layout: the object handed to
      `JSON.stringify`. Level, message and timestamp come first, followed by
      one member per present optional field. */
  function FormatLogEntry(e: LogEntry): (ms: seq<Member>)
    ensures |ms| == 3 + (if Truthy(e.userId) then 1 else 0) + (if Truthy(e.component) then 1 else 0)
                      + (if e.error.Some? then 1 else 0) + (if e.metadata.Some? then 1 else 0)
    ensures ms[0] == Member(LevelKey, Text(LevelName(e.level)))
    ensures ms[1] == Member(MessageKey, Text(e.message))
    ensures ms[2] == Member(TimestampKey, Text(e.timestamp))
  {
    BaseMembers(e) + OptionalMembers(e)
  }

  /** The value of the first member with key `k`. */
  function Lookup(ms: seq<Member>, k: Key): Option<Rendered> {
    if ms == [] then None
    else if ms[0].key == k then Some(ms[0].value)
    else Lookup(ms[1..], k)
  }

  function StringAt(ms: seq<Member>, k: Key): Option<string> {
    match Lookup(ms, k)
    case Some(Text(s)) => Some(s)
    case _ => None
  }

  function ErrorAt(ms: seq<Member>): Option<ErrorInfo> {
    match Lookup(ms, ErrorKey)
    case Some(ErrorObject(x)) => Some(x)
    case _ => None
  }

  function MetadataAt(ms: seq<Member>): Option<Metadata> {
    match Lookup(ms, MetadataKey)
    case Some(Object(x)) => Some(x)
    case _ => None
  }

  /** Reads an entry back from its members: the reference reading of what
      `formatLogEntry` writes. */
  function ParseEntry(ms: seq<Member>): Option<LogEntry> {
    var level := StringAt(ms, LevelKey);
    var message := StringAt(ms, MessageKey);
    var timestamp := StringAt(ms, TimestampKey);
    if level.None? || message.None? || timestamp.None? then None
    else match LevelFromName(level.value)
      case None => None
      case Some(l) =>
        Some(LogEntry(l, message.value, timestamp.value, StringAt(ms, UserIdKey), StringAt(ms, ComponentKey),
                      ErrorAt(ms), MetadataAt(ms)))
  }

  /** An entry as `formatLogEntry` sees it: empty strings count as absent. */
  function Normalized(e: LogEntry): LogEntry {
    e.(userId := IfTruthy(e.userId), component := IfTruthy(e.component))
  }

  lemma {:induction false} LookupAppend(a: seq<Member>, b: seq<Member>, k: Key)
    ensures Lookup(a + b, k) == if Lookup(a, k).Some? then Lookup(a, k) else Lookup(b, k)
  {
    if a == [] {
      assert a + b == b;
    } else {
      assert (a + b)[0] == a[0] && (a + b)[1..] == a[1..] + b;
      LookupAppend(a[1..], b, k);
    }
  }

  lemma LookupOptional(k: Key, v: Option<Rendered>, j: Key)
    ensures Lookup(Optional(k, v), j) == if k == j then v else None
  {
    if v.Some? {
      assert Optional(k, v)[1..] == [];
    }
  }

  /** The value `formatLogEntry` writes under each key, if any. */
  function ValueAt(e: LogEntry, k: Key): Option<Rendered> {
    match k
    case LevelKey => Some(Text(LevelName(e.level)))
    case MessageKey => Some(Text(e.message))
    case TimestampKey => Some(Text(e.timestamp))
    case UserIdKey => TextOf(IfTruthy(e.userId))
    case ComponentKey => TextOf(IfTruthy(e.component))
    case ErrorKey => ErrorOf(e.error)
    case MetadataKey => ObjectOf(e.metadata)
  }

  lemma BaseLookup(e: LogEntry, k: Key)
    ensures Lookup(BaseMembers(e), k)
         == if k == LevelKey || k == MessageKey || k == TimestampKey then ValueAt(e, k) else None
  {
    var rest := [Member(TimestampKey, Text(e.timestamp))];
    assert BaseMembers(e)[1..][1..] == rest && rest[1..] == [];
    assert Lookup(rest, k) == if k == TimestampKey then Some(Text(e.timestamp)) else None;
  }

  lemma {:induction false} OptionalLookup(e: LogEntry, k: Key)
    ensures Lookup(OptionalMembers(e), k)
         == if k == LevelKey || k == MessageKey || k == TimestampKey then None else ValueAt(e, k)
  {
    var u := Optional(UserIdKey, TextOf(IfTruthy(e.userId)));
    var c := Optional(ComponentKey, TextOf(IfTruthy(e.component)));
    var r := Optional(ErrorKey, ErrorOf(e.error));
    var m := Optional(MetadataKey, ObjectOf(e.metadata));
    LookupAppend(u, c + (r + m), k);
    LookupAppend(c, r + m, k);
    LookupAppend(r, m, k);
    LookupOptional(UserIdKey, TextOf(IfTruthy(e.userId)), k);
    LookupOptional(ComponentKey, TextOf(IfTruthy(e.component)), k);
    LookupOptional(ErrorKey, ErrorOf(e.error), k);
    LookupOptional(MetadataKey, ObjectOf(e.metadata), k);
  }

  /** Every key of the formatted object holds the entry's value for it. */
  lemma FormatLookup(e: LogEntry, k: Key)
    ensures Lookup(FormatLogEntry(e), k) == ValueAt(e, k)
  {
    LookupAppend(BaseMembers(e), OptionalMembers(e), k);
    BaseLookup(e, k);
    OptionalLookup(e, k);
  }

  /** A key has a value exactly when it occurs among the members. */
  lemma {:induction false} LookupFindsKeys(ms: seq<Member>, k: Key)
    ensures Lookup(ms, k).Some? <==> k in Keys(ms)
  {
    if ms != [] {
      assert Keys(ms) == [ms[0].key] + Keys(ms[1..]);
      LookupFindsKeys(ms[1..], k);
    }
  }

  /** Level, message and timestamp come first, in that order, and each
      optional field is written exactly when it is truthy in the entry. */
  lemma FormatOmitsAbsent(e: LogEntry)
    ensures var ks := Keys(FormatLogEntry(e));
      |ks| >= 3 && ks[..3] == [LevelKey, MessageKey, TimestampKey]
      && (UserIdKey in ks <==> Truthy(e.userId))
      && (ComponentKey in ks <==> Truthy(e.component))
      && (ErrorKey in ks <==> e.error.Some?)
      && (MetadataKey in ks <==> e.metadata.Some?)
  {
    var ms := FormatLogEntry(e);
    assert ms[..3] == BaseMembers(e);
    forall k | k in {UserIdKey, ComponentKey, ErrorKey, MetadataKey}
      ensures k in Keys(ms) <==> ValueAt(e, k).Some?
    {
      FormatLookup(e, k);
      LookupFindsKeys(ms, k);
    }
  }

  /** Formatting loses nothing but empty strings: the members read back as
      the entry with its falsy optional strings dropped. */
  lemma FormatRoundTrip(e: LogEntry)
    ensures ParseEntry(FormatLogEntry(e)) == Some(Normalized(e))
  {
    var ms := FormatLogEntry(e);
    FormatLookup(e, LevelKey);
    FormatLookup(e, MessageKey);
    FormatLookup(e, TimestampKey);
    FormatLookup(e, UserIdKey);
    FormatLookup(e, ComponentKey);
    FormatLookup(e, ErrorKey);
    FormatLookup(e, MetadataKey);
    LevelNameRoundTrip(e.level);
    assert StringAt(ms, UserIdKey) == IfTruthy(e.userId);
    assert StringAt(ms, ComponentKey) == IfTruthy(e.component);
  }

  /** The position of each key in the object literal of `formatLogEntry`. */
  function KeyRank(k: Key): nat {
    match k
    case LevelKey => 0
    case MessageKey => 1
    case TimestampKey => 2
    case UserIdKey => 3
    case ComponentKey => 4
    case ErrorKey => 5
    case MetadataKey => 6
  }

  /** The members' keys follow the object literal's order, each at most once. */
  predicate KeysAscend(ms: seq<Member>) {
    forall i, j :: 0 <= i < j < |ms| ==> KeyRank(ms[i].key) < KeyRank(ms[j].key)
  }

  /** Every member's key ranks in `[lo, hi)`. */
  predicate RanksWithin(ms: seq<Member>, lo: nat, hi: nat) {
    forall i :: 0 <= i < |ms| ==> lo <= KeyRank(ms[i].key) < hi
  }

  lemma AscendAppend(a: seq<Member>, b: seq<Member>, lo: nat, mid: nat, hi: nat)
    requires lo <= mid <= hi
    requires KeysAscend(a) && RanksWithin(a, lo, mid)
    requires KeysAscend(b) && RanksWithin(b, mid, hi)
    ensures KeysAscend(a + b) && RanksWithin(a + b, lo, hi)
  {
    forall i, j | 0 <= i < j < |a + b|
      ensures KeyRank((a + b)[i].key) < KeyRank((a + b)[j].key)
    {
      if j < |a| {
      } else if i >= |a| {
        assert (a + b)[i] == b[i - |a|] && (a + b)[j] == b[j - |a|];
      } else {
        assert (a + b)[i] == a[i] && (a + b)[j] == b[j - |a|];
      }
    }
    forall i | 0 <= i < |a + b|
      ensures lo <= KeyRank((a + b)[i].key) < hi
    {
      if i >= |a| {
        assert (a + b)[i] == b[i - |a|];
      } else {
        assert (a + b)[i] == a[i];
      }
    }
  }

  lemma OptionalAscends(k: Key, v: Option<Rendered>)
    ensures KeysAscend(Optional(k, v)) && RanksWithin(Optional(k, v), KeyRank(k), KeyRank(k) + 1)
  {
  }

  lemma OptionalKeysAscend(e: LogEntry)
    ensures KeysAscend(OptionalMembers(e)) && RanksWithin(OptionalMembers(e), 3, 7)
  {
    var u := Optional(UserIdKey, TextOf(IfTruthy(e.userId)));
    var c := Optional(ComponentKey, TextOf(IfTruthy(e.component)));
    var x := Optional(ErrorKey, ErrorOf(e.error));
    var m := Optional(MetadataKey, ObjectOf(e.metadata));
    OptionalAscends(UserIdKey, TextOf(IfTruthy(e.userId)));
    OptionalAscends(ComponentKey, TextOf(IfTruthy(e.component)));
    OptionalAscends(ErrorKey, ErrorOf(e.error));
    OptionalAscends(MetadataKey, ObjectOf(e.metadata));
    AscendFour(u, c, x, m);
  }

  lemma AscendFour(u: seq<Member>, c: seq<Member>, x: seq<Member>, m: seq<Member>)
    requires KeysAscend(u) && RanksWithin(u, 3, 4) && KeysAscend(c) && RanksWithin(c, 4, 5)
    requires KeysAscend(x) && RanksWithin(x, 5, 6) && KeysAscend(m) && RanksWithin(m, 6, 7)
    ensures KeysAscend(u + (c + (x + m))) && RanksWithin(u + (c + (x + m)), 3, 7)
  {
    AscendAppend(x, m, 5, 6, 7);
    AscendAppend(c, x + m, 4, 5, 7);
    AscendAppend(u, c + (x + m), 3, 4, 7);
  }

  /** The object `formatLogEntry` builds lists its keys in the literal's
      order, so no key appears twice. */
  lemma FormatKeysAscend(e: LogEntry)
    ensures KeysAscend(FormatLogEntry(e))
    ensures var ms := FormatLogEntry(e); forall i, j :: 0 <= i < j < |ms| ==> ms[i].key != ms[j].key
  {
    OptionalKeysAscend(e);
    assert KeysAscend(BaseMembers(e)) && RanksWithin(BaseMembers(e), 0, 3);
    AscendAppend(BaseMembers(e), OptionalMembers(e), 0, 3, 7);
  }

  /** Entries `log` builds are already normalized, so they read back
      unchanged. */
  lemma MadeEntryRoundTrip(level: LogLevel, message: string, now: string, error: Option<ErrorInfo>,
                           metadata: Option<Metadata>, component: Option<string>, userId: Option<string>)
    ensures var e := MakeEntry(level, message, now, error, metadata, component, userId);
      ParseEntry(FormatLogEntry(e)) == Some(e)
  {
    FormatRoundTrip(MakeEntry(level, message, now, error, metadata, component, userId));
  }

  // ---------------------------------------------------------------------------
  // The bounded list
  // ---------------------------------------------------------------------------

  const MaxLogs := 100

  /** The last `n` elements of `s`, or all of `s` when it is shorter. */
  function LastN<T>(s: seq<T>, n: nat): (r: seq<T>)
    ensures |r| == if |s| <= n then |s| else n
    ensures r == s[|s| - |r|..]
  {
    if |s| <= n then s else s[|s| - n..]
  }

  /** What one `sendToLoggingService` call keeps, stated the way the list is
      used: at most 100 entries, the new one last, nothing dropped while
      there was room, and always a suffix of the old list followed by the
      new entry. */
  lemma RetainedEntries(logs: seq<LogEntry>, entry: LogEntry)
    ensures var r := LastN(logs + [entry], MaxLogs);
      |r| <= MaxLogs && |r| >= 1 && r[|r| - 1] == entry
      && (|logs| < MaxLogs ==> r == logs + [entry])
      && (|logs| >= MaxLogs ==> |r| == MaxLogs)
      && r == logs[|logs| + 1 - |r|..] + [entry]
  {
    var s := logs + [entry];
    var r := LastN(s, MaxLogs);
    assert s[|s| - |r|..] == logs[|logs| + 1 - |r|..] + [entry];
  }

  /** A fixed-capacity queue: append, dropping the oldest entry when full. */
  function Enqueue(q: seq<LogEntry>, entry: LogEntry): seq<LogEntry> {
    if |q| >= MaxLogs then q[1..] + [entry] else q + [entry]
  }

  /** On a list that respects the bound, the push-and-splice is exactly the
      fixed-capacity queue. */
  lemma RetainedIsEnqueue(q: seq<LogEntry>, entry: LogEntry)
    requires |q| <= MaxLogs
    ensures LastN(q + [entry], MaxLogs) == Enqueue(q, entry)
  {
    if |q| == MaxLogs {
      assert (q + [entry])[1..] == q[1..] + [entry];
    }
  }

  /** Sending entries one after another, starting from `logs`. */
  function SendAll(logs: seq<LogEntry>, entries: seq<LogEntry>): seq<LogEntry>
    decreases |entries|
  {
    if entries == [] then logs
    else SendAll(LastN(logs + [entries[0]], MaxLogs), entries[1..])
  }

  /** Keeping the last `n` before appending more keeps the same last `n`. */
  lemma LastNConcat<T>(s: seq<T>, t: seq<T>, n: nat)
    ensures LastN(LastN(s, n) + t, n) == LastN(s + t, n)
  {
    var a := LastN(s, n);
    var i := |s| - |a|;
    assert a + t == (s + t)[i..];
    var r := LastN(s + t, n);
    assert |LastN(a + t, n)| == |r|;
    assert (s + t)[i..][|a + t| - |r|..] == (s + t)[|s + t| - |r|..];
  }

  /** However many entries are sent, the stored list is the last 100 of
      everything: the old entries followed by the new ones. */
  lemma {:induction false} SendAllKeepsLast(logs: seq<LogEntry>, entries: seq<LogEntry>)
    requires |logs| <= MaxLogs
    ensures SendAll(logs, entries) == LastN(logs + entries, MaxLogs)
    decreases |entries|
  {
    if entries == [] {
      assert logs + entries == logs;
    } else {
      SendAllKeepsLast(LastN(logs + [entries[0]], MaxLogs), entries[1..]);
      LastNConcat(logs + [entries[0]], entries[1..], MaxLogs);
      assert logs + entries == (logs + [entries[0]]) + entries[1..];
    }
  }

  // ---------------------------------------------------------------------------
  // The logger
  // ---------------------------------------------------------------------------

  /** The logger; `stored` is the list held under `app_logs`. */
  class Logger {
    var stored: seq<LogEntry>

    /** A logger whose storage holds no list yet (`getItem` gives null,
        read as `[]`). */
    constructor ()
      ensures stored == []
    {
      stored := [];
    }

    /** `sendToLoggingService`: read the list, push the entry, and splice
        away the front when it is longer than 100. */
    method SendToLoggingService(entry: LogEntry)
      modifies this
      ensures stored == LastN(old(stored) + [entry], MaxLogs)
    {
      var logs := stored;
      logs := logs + [entry];
      if |logs| > MaxLogs {
        logs := logs[|logs| - MaxLogs..];
      }
      stored := logs;
    }

    /** `log`: build the entry, render it (for the console), and store it.
        The rendered members are returned. */
    method Log(level: LogLevel, message: string, now: string, error: Option<ErrorInfo>,
               metadata: Option<Metadata>, component: Option<string>, userId: Option<string>)
      returns (formatted: seq<Member>)
      modifies this
      ensures stored == LastN(old(stored) + [MakeEntry(level, message, now, error, metadata, component, userId)], MaxLogs)
      ensures ParseEntry(formatted) == Some(MakeEntry(level, message, now, error, metadata, component, userId))
    {
      var entry := MakeEntry(level, message, now, error, metadata, component, userId);
      formatted := FormatLogEntry(entry);
      MadeEntryRoundTrip(level, message, now, error, metadata, component, userId);
      SendToLoggingService(entry);
    }

    method Error(message: string, now: string, error: Option<ErrorInfo>, metadata: Option<Metadata>,
                 component: Option<string>, userId: Option<string>)
      modifies this
      ensures stored == LastN(old(stored) + [MakeEntry(ERROR, message, now, error, metadata, component, userId)], MaxLogs)
      ensures stored[|stored| - 1].level == ERROR && stored[|stored| - 1].message == message
    {
      var _ := Log(ERROR, message, now, error, metadata, component, userId);
      RetainedEntries(old(stored), MakeEntry(ERROR, message, now, error, metadata, component, userId));
    }

    method Warn(message: string, now: string, metadata: Option<Metadata>, component: Option<string>,
                userId: Option<string>)
      modifies this
      ensures stored == LastN(old(stored) + [MakeEntry(WARN, message, now, None, metadata, component, userId)], MaxLogs)
      ensures stored[|stored| - 1].level == WARN && stored[|stored| - 1].message == message
    {
      var _ := Log(WARN, message, now, None, metadata, component, userId);
      RetainedEntries(old(stored), MakeEntry(WARN, message, now, None, metadata, component, userId));
    }

    method Info(message: string, now: string, metadata: Option<Metadata>, component: Option<string>,
                userId: Option<string>)
      modifies this
      ensures stored == LastN(old(stored) + [MakeEntry(INFO, message, now, None, metadata, component, userId)], MaxLogs)
      ensures stored[|stored| - 1].level == INFO && stored[|stored| - 1].message == message
    {
      var _ := Log(INFO, message, now, None, metadata, component, userId);
      RetainedEntries(old(stored), MakeEntry(INFO, message, now, None, metadata, component, userId));
    }

    method Debug(message: string, now: string, metadata: Option<Metadata>, component: Option<string>,
                 userId: Option<string>)
      modifies this
      ensures stored == LastN(old(stored) + [MakeEntry(DEBUG, message, now, None, metadata, component, userId)], MaxLogs)
      ensures stored[|stored| - 1].level == DEBUG && stored[|stored| - 1].message == message
    {
      var _ := Log(DEBUG, message, now, None, metadata, component, userId);
      RetainedEntries(old(stored), MakeEntry(DEBUG, message, now, None, metadata, component, userId));
    }
  }
}
