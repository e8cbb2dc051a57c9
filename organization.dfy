/** The Organization document: its URL slug, plan limits, admission checks,
    usage counters and the monthly reset over the whole collection
    (backend/src/models/Organization.js). Time is a natural number (a
    timestamp); calendar arithmetic is done by the caller. */
module OrganizationModel {
  import opened Wrappers
  import opened Strings

  // ---------------------------------------------------------------------------
  // Slug: lower-case, every run of characters other than a-z and 0-9 becomes one
  // hyphen, then a hyphen at either end is removed.
  // ---------------------------------------------------------------------------

  predicate IsSlugChar(c: char) {
    'a' <= c <= 'z' || '0' <= c <= '9'
  }

  /** The shape of a generated slug. */
  predicate IsSlug(s: string) {
    (forall i :: 0 <= i < |s| ==> IsSlugChar(s[i]) || s[i] == '-')
    && (forall i :: 0 <= i < |s| - 1 ==> s[i] != '-' || s[i + 1] != '-')
    && (s != [] ==> s[0] != '-' && s[|s| - 1] != '-')
  }

  /** The letters and digits of `s`, in order. */
  function Alnums(s: string): string {
    if s == [] then [] else (if IsSlugChar(s[0]) then [s[0]] else []) + Alnums(s[1..])
  }

  /** `replace(/[^a-z0-9]+/g, '-')`; `inRun` says the previous character
      already belonged to a replaced run. */
  function CollapseRuns(s: string, inRun: bool): (r: string)
    ensures forall i :: 0 <= i < |r| ==> IsSlugChar(r[i]) || r[i] == '-'
    ensures forall i :: 0 <= i < |r| - 1 ==> r[i] != '-' || r[i + 1] != '-'
    ensures inRun && r != [] ==> r[0] != '-'
  {
    if s == [] then []
    else if IsSlugChar(s[0]) then [s[0]] + CollapseRuns(s[1..], false)
    else if inRun then CollapseRuns(s[1..], true)
    else ['-'] + CollapseRuns(s[1..], true)
  }

  predicate NoDoubleHyphen(s: string) {
    forall i :: 0 <= i < |s| - 1 ==> s[i] != '-' || s[i + 1] != '-'
  }

  /** `r` is `s` less its first `i` characters and possibly its last one:
      the first character goes exactly when it is a hyphen, and the last of
      what is left goes exactly when that is a hyphen. */
  predicate DropsEndHyphens(s: string, i: int, r: string) {
    0 <= i <= 1 && i + |r| <= |s| <= i + |r| + 1 && r == s[i..i + |r|]
    && (i == 1 <==> s != [] && s[0] == '-')
    && (i + |r| < |s| <==> i < |s| && s[|s| - 1] == '-')
  }

  /** `replace(/(^-|-$)/g, '')`: a hyphen at the start and one at the end are
      removed, and nothing else. */
  function StripEndHyphens(s: string): (r: string)
    ensures exists i :: DropsEndHyphens(s, i, r)
    ensures (s == [] || (s[0] != '-' && s[|s| - 1] != '-')) ==> r == s
    ensures NoDoubleHyphen(s) ==> r == [] || (r[0] != '-' && r[|r| - 1] != '-')
  {
    var i := if s != [] && s[0] == '-' then 1 else 0;
    var t := s[i..];
    var r := if t != [] && t[|t| - 1] == '-' then t[..|t| - 1] else t;
    assert r == s[i..i + |r|];
    assert DropsEndHyphens(s, i, r);
    r
  }

  /** Stripping the end hyphens of collapsed text leaves a slug. */
  lemma StripGivesSlug(c: string)
    requires forall i :: 0 <= i < |c| ==> IsSlugChar(c[i]) || c[i] == '-'
    requires NoDoubleHyphen(c)
    ensures IsSlug(StripEndHyphens(c))
  {
    var r := StripEndHyphens(c);
    var i :| DropsEndHyphens(c, i, r);
    assert forall k :: 0 <= k < |r| ==> r[k] == c[i + k];
  }

  /** The slug the pre-save hook derives from an organization name. */
  function Slugify(name: string): (r: string)
    ensures IsSlug(r)
  {
    var c := CollapseRuns(Lower(name), false);
    StripGivesSlug(c);
    StripEndHyphens(c)
  }

  lemma {:induction false} AlnumsAppend(a: string, b: string)
    ensures Alnums(a + b) == Alnums(a) + Alnums(b)
  {
    if a == [] {
      assert a + b == b;
    } else {
      var h := if IsSlugChar(a[0]) then [a[0]] else [];
      assert (a + b)[0] == a[0] && (a + b)[1..] == a[1..] + b;
      assert Alnums(a + b) == h + Alnums(a[1..] + b);
      AlnumsAppend(a[1..], b);
      assert h + (Alnums(a[1..]) + Alnums(b)) == (h + Alnums(a[1..])) + Alnums(b);
    }
  }

  lemma {:induction false} CollapseKeepsAlnums(s: string, inRun: bool)
    ensures Alnums(CollapseRuns(s, inRun)) == Alnums(s)
  {
    if s != [] {
      CollapseKeepsAlnums(s[1..], !IsSlugChar(s[0]));
      var tail := CollapseRuns(s[1..], !IsSlugChar(s[0]));
      if IsSlugChar(s[0]) {
        AlnumsAppend([s[0]], tail);
      } else if !inRun {
        AlnumsAppend(['-'], tail);
      }
    }
  }

  /** Dropping a hyphen at either end keeps the letters and digits. */
  lemma DropsEndHyphensKeepsAlnums(s: string, i: int, r: string)
    requires DropsEndHyphens(s, i, r)
    ensures Alnums(r) == Alnums(s)
  {
    var m := s[i..];
    if i == 1 {
      assert s == ['-'] + m;
      AlnumsAppend(['-'], m);
    }
    if |r| < |m| {
      assert m == r + ['-'];
      AlnumsAppend(r, ['-']);
    } else {
      assert r == m;
    }
  }

  /** The slug keeps exactly the letters and digits of the lower-cased name,
      in their order: only separators are rewritten. */
  lemma SlugKeepsAlnums(name: string)
    ensures Alnums(Slugify(name)) == Alnums(Lower(name))
  {
    var c := CollapseRuns(Lower(name), false);
    CollapseKeepsAlnums(Lower(name), false);
    var r := StripEndHyphens(c);
    var i :| DropsEndHyphens(c, i, r);
    DropsEndHyphensKeepsAlnums(c, i, r);
  }

  lemma {:induction false} CollapseIdle(s: string, inRun: bool)
    requires forall i :: 0 <= i < |s| ==> IsSlugChar(s[i]) || s[i] == '-'
    requires forall i :: 0 <= i < |s| - 1 ==> s[i] != '-' || s[i + 1] != '-'
    requires inRun ==> s == [] || s[0] != '-'
    ensures CollapseRuns(s, inRun) == s
  {
    if s != [] {
      CollapseIdle(s[1..], !IsSlugChar(s[0]));
      assert s == [s[0]] + s[1..];
    }
  }

  lemma LowerKeepsSlugChars(s: string)
    requires forall i :: 0 <= i < |s| ==> IsSlugChar(s[i]) || s[i] == '-'
    ensures Lower(s) == s
  {
    assert forall i :: 0 <= i < |s| ==> Lower(s)[i] == s[i];
  }

  /** A slug is its own slug, so slugifying is idempotent. */
  lemma SlugOfSlug(s: string)
    requires IsSlug(s)
    ensures Slugify(s) == s
  {
    LowerKeepsSlugChars(s);
    CollapseIdle(s, false);
  }

  lemma SlugifyIdempotent(name: string)
    ensures Slugify(Slugify(name)) == Slugify(name)
  {
    SlugOfSlug(Slugify(name));
  }

  // ---------------------------------------------------------------------------
  // The slug as words joined by hyphens
  // ---------------------------------------------------------------------------

  /** A non-empty run of letters and digits. */
  predicate IsWord(w: string) {
    w != [] && forall j :: 0 <= j < |w| ==> IsSlugChar(w[j])
  }

  /** The maximal runs of letters and digits in `s`, in order. */
  function Words(s: string): (ws: seq<string>)
    ensures forall k :: 0 <= k < |ws| ==> IsWord(ws[k])
    ensures ws == [] <==> forall i :: 0 <= i < |s| ==> !IsSlugChar(s[i])
    ensures s != [] && IsSlugChar(s[0]) ==> ws != [] && IsWord(ws[0]) && ws[0][0] == s[0]
  {
    if s == [] then []
    else if !IsSlugChar(s[0]) then
      var ws := Words(s[1..]);
      assert ws == [] <==> forall i :: 0 <= i < |s| ==> !IsSlugChar(s[i]) by {
        assert forall i :: 1 <= i < |s| ==> s[i] == s[1..][i - 1];
      }
      ws
    else if |s| > 1 && IsSlugChar(s[1]) then
      var rest := Words(s[1..]);
      [[s[0]] + rest[0]] + rest[1..]
    else
      [[s[0]]] + Words(s[1..])
  }

  /** The words, each separated from the next by one hyphen. */
  function JoinWords(ws: seq<string>): (r: string)
    ensures (forall k :: 0 <= k < |ws| ==> IsWord(ws[k])) ==>
      (r == [] <==> ws == []) && (r != [] ==> IsSlugChar(r[0]) && IsSlugChar(r[|r| - 1]))
  {
    if ws == [] then [] else if |ws| == 1 then ws[0] else ws[0] + "-" + JoinWords(ws[1..])
  }

  /** The last character of `s` is not a letter or digit. */
  predicate EndsInGap(s: string) {
    s != [] && !IsSlugChar(s[|s| - 1])
  }

  /** Outside a run, a letter or digit is copied either way, so the flag
      only matters for a leading separator. */
  lemma CollapseOutsideRun(s: string)
    ensures CollapseRuns(s, false)
         == if s != [] && !IsSlugChar(s[0]) then ['-'] + CollapseRuns(s[1..], true) else CollapseRuns(s, true)
  {
  }

  lemma JoinExtendsFirstWord(c: char, w: string, rest: seq<string>)
    ensures JoinWords([[c] + w] + rest) == [c] + JoinWords([w] + rest)
  {
    var ws := [[c] + w] + rest;
    assert ws[1..] == rest && ([w] + rest)[1..] == rest;
    if rest != [] {
      assert ([c] + w) + "-" + JoinWords(rest) == [c] + (w + "-" + JoinWords(rest));
    }
  }

  /** The hyphen collapsing leaves after the last word when the text ends
      with separators. */
  function Gap(s: string): string {
    if Words(s) != [] && EndsInGap(s) then "-" else ""
  }

  /** Inside a run, collapsing writes the words joined by hyphens, plus one
      hyphen when the text ends with separators after a word. */
  predicate CollapsesToWords(s: string) {
    CollapseRuns(s, true) == JoinWords(Words(s)) + Gap(s)
  }

  lemma CollapseSkipsSeparator(s: string)
    requires s != [] && !IsSlugChar(s[0]) && CollapsesToWords(s[1..])
    ensures CollapsesToWords(s)
  {
    assert Words(s) == Words(s[1..]);
    if s[1..] != [] {
      assert s[1..][|s[1..]| - 1] == s[|s| - 1];
    }
  }

  lemma CollapseSingleChar(s: string)
    requires |s| == 1 && IsSlugChar(s[0])
    ensures CollapsesToWords(s)
  {
    assert s[1..] == [];
    assert Words(s) == [[s[0]]];
    assert CollapseRuns(s, true) == [s[0]];
  }

  lemma CollapseExtendsWord(s: string)
    requires |s| > 1 && IsSlugChar(s[0]) && IsSlugChar(s[1]) && CollapsesToWords(s[1..])
    ensures CollapsesToWords(s)
  {
    var rest := Words(s[1..]);
    var j := JoinWords(rest);
    assert CollapseRuns(s, true) == [s[0]] + CollapseRuns(s[1..], true);
    assert Words(s) == [[s[0]] + rest[0]] + rest[1..];
    JoinExtendsFirstWord(s[0], rest[0], rest[1..]);
    assert [rest[0]] + rest[1..] == rest;
    assert s[1..][|s[1..]| - 1] == s[|s| - 1];
    assert Gap(s) == Gap(s[1..]);
    assert [s[0]] + (j + Gap(s)) == ([s[0]] + j) + Gap(s);
  }

  /** Collapsing a letter or digit followed by a separator. */
  lemma CollapseEndsWord(s: string)
    requires |s| > 1 && IsSlugChar(s[0]) && !IsSlugChar(s[1]) && CollapsesToWords(s[2..])
    ensures CollapsesToWords(s)
  {
    var tail := s[2..];
    assert s[1..][1..] == tail;
    assert Words(s[1..]) == Words(tail);
    assert Words(s) == [[s[0]]] + Words(tail);
    assert CollapseRuns(s, true) == [s[0]] + (['-'] + CollapseRuns(tail, true));
    if Words(tail) == [] {
      CollapseEndsLastWord(s);
    } else {
      CollapseEndsInnerWord(s);
    }
  }

  lemma CollapseEndsLastWord(s: string)
    requires |s| > 1 && IsSlugChar(s[0]) && !IsSlugChar(s[1]) && CollapsesToWords(s[2..])
    requires Words(s[2..]) == [] && Words(s) == [[s[0]]] + Words(s[2..])
    requires CollapseRuns(s, true) == [s[0]] + (['-'] + CollapseRuns(s[2..], true))
    ensures CollapsesToWords(s)
  {
    var tail := s[2..];
    assert Gap(tail) == "";
    assert CollapseRuns(tail, true) == [];
    if tail != [] {
      assert !IsSlugChar(tail[|tail| - 1]);
      assert tail[|tail| - 1] == s[|s| - 1];
    }
    assert EndsInGap(s);
    assert Words(s) == [[s[0]]];
    assert JoinWords(Words(s)) == [s[0]];
  }

  lemma CollapseEndsInnerWord(s: string)
    requires |s| > 1 && IsSlugChar(s[0]) && !IsSlugChar(s[1]) && CollapsesToWords(s[2..])
    requires Words(s[2..]) != [] && Words(s) == [[s[0]]] + Words(s[2..])
    requires CollapseRuns(s, true) == [s[0]] + (['-'] + CollapseRuns(s[2..], true))
    ensures CollapsesToWords(s)
  {
    var ws := Words(s[2..]);
    var j := JoinWords(ws);
    var g := Gap(s[2..]);
    JoinPrepend([s[0]], ws);
    GapOfSuffix(s, 2);
    Regroup([s[0]], "-", j, g);
  }

  lemma Regroup(a: string, b: string, c: string, d: string)
    ensures a + (b + (c + d)) == a + b + c + d
  {
  }

  lemma JoinPrepend(w: string, ws: seq<string>)
    requires ws != []
    ensures JoinWords([w] + ws) == w + "-" + JoinWords(ws)
  {
    assert ([w] + ws)[1..] == ws;
  }

  /** Two texts with words in them that end alike leave the same gap. */
  lemma GapOfSuffix(s: string, k: nat)
    requires k < |s| && Words(s) != [] && Words(s[k..]) != []
    ensures Gap(s) == Gap(s[k..])
  {
    assert s[k..][|s[k..]| - 1] == s[|s| - 1];
  }

  lemma {:induction false} CollapseJoinsWords(s: string)
    ensures CollapsesToWords(s)
    decreases |s|
  {
    if s == [] {
    } else if !IsSlugChar(s[0]) {
      CollapseJoinsWords(s[1..]);
      CollapseSkipsSeparator(s);
    } else if |s| == 1 {
      CollapseSingleChar(s);
    } else if IsSlugChar(s[1]) {
      CollapseJoinsWords(s[1..]);
      CollapseExtendsWord(s);
    } else {
      CollapseJoinsWords(s[2..]);
      CollapseEndsWord(s);
    }
  }

  /** The slug is exactly the runs of letters and digits of the lower-cased
      name, joined by single hyphens: every run of other characters between
      two words becomes one hyphen, and none is left at either end. */
  lemma SlugifyJoinsWords(name: string)
    ensures Slugify(name) == JoinWords(Words(Lower(name)))
  {
    var l := Lower(name);
    var lead, gap := CollapsedAroundWords(l);
    StripAroundWords(lead, JoinWords(Words(l)), gap);
  }

  /** Collapsing text from outside a run gives its words joined by hyphens,
      with at most one hyphen in front and one behind. */
  lemma CollapsedAroundWords(l: string) returns (lead: string, gap: string)
    ensures lead == "" || lead == "-"
    ensures gap == "" || gap == "-"
    ensures Words(l) == [] ==> gap == ""
    ensures CollapseRuns(l, false) == lead + (JoinWords(Words(l)) + gap)
  {
    CollapseOutsideRun(l);
    if l != [] && !IsSlugChar(l[0]) {
      CollapseJoinsWords(l[1..]);
      assert Words(l) == Words(l[1..]);
      lead, gap := "-", Gap(l[1..]);
    } else {
      CollapseJoinsWords(l);
      lead, gap := "", Gap(l);
    }
  }

  /** Stripping removes exactly one leading and one trailing hyphen from
      words joined by hyphens. */
  lemma StripAroundWords(lead: string, j: string, gap: string)
    requires lead == "" || lead == "-"
    requires gap == "" || gap == "-"
    requires j == [] ==> gap == ""
    requires j != [] ==> IsSlugChar(j[0]) && IsSlugChar(j[|j| - 1])
    ensures StripEndHyphens(lead + (j + gap)) == j
  {
    var s := lead + (j + gap);
    var r := StripEndHyphens(s);
    var i :| DropsEndHyphens(s, i, r);
    if j == [] {
      assert s == lead;
    } else {
      assert s[|lead|] == j[0] && s[|lead| + |j| - 1] == j[|j| - 1];
      assert i == |lead|;
      assert |r| == |j|;
      assert s[|lead|..|lead| + |j|] == j;
    }
  }

  // ---------------------------------------------------------------------------
  // Plan limits
  // ---------------------------------------------------------------------------

  datatype Limits = Limits(maxUsers: nat, maxRepositories: nat, maxScansPerMonth: nat, maxConcurrentScans: nat)

  const FreeLimits := Limits(5, 3, 100, 1)
  const ProfessionalLimits := Limits(20, 25, 1000, 3)
  const EnterpriseLimits := Limits(100, 100, 10000, 10)

  /** The values the schema admits for `plan`. */
  const Plans: set<string> := {"free", "professional", "enterprise"}

  /** The `limits` virtual: the fixed tuple of the plan, the free tuple for any
      other plan name. */
  function PlanLimits(plan: string): (l: Limits)
    ensures plan == "free" ==> l == FreeLimits
    ensures plan == "professional" ==> l == ProfessionalLimits
    ensures plan == "enterprise" ==> l == EnterpriseLimits
    ensures plan !in Plans ==> l == FreeLimits
  {
    if plan == "professional" then ProfessionalLimits
    else if plan == "enterprise" then EnterpriseLimits
    else FreeLimits
  }

  predicate AtMost(a: Limits, b: Limits) {
    a.maxUsers <= b.maxUsers && a.maxRepositories <= b.maxRepositories
    && a.maxScansPerMonth <= b.maxScansPerMonth && a.maxConcurrentScans <= b.maxConcurrentScans
  }

  /** The tiers are ordered: every plan grants at least the free tuple, and
      enterprise grants at least what professional grants. */
  lemma PlanTiersOrdered(plan: string)
    ensures AtMost(FreeLimits, PlanLimits(plan))
    ensures AtMost(PlanLimits(plan), EnterpriseLimits)
    ensures AtMost(ProfessionalLimits, EnterpriseLimits)
  {
  }

  // ---------------------------------------------------------------------------
  // Notification recipients: `/^[^\s@]+@[^\s@]+\.[^\s@]+$/`
  // ---------------------------------------------------------------------------

  /** What the recipient pattern describes: no white space, exactly one `@`
      with something before it, and a `.` after it that has something on
      both sides. */
  ghost predicate MatchesRecipientPattern(s: string) {
    exists at, dot ::
      0 < at && at + 1 < dot < |s| - 1 && s[at] == '@' && s[dot] == '.'
      && forall k :: 0 <= k < |s| ==> !IsJsSpace(s[k]) && (s[k] == '@' ==> k == at)
  }

  function IndexOfChar(s: string, c: char): (r: int)
    ensures -1 <= r < |s|
    ensures r == -1 ==> forall k :: 0 <= k < |s| ==> s[k] != c
    ensures r >= 0 ==> s[r] == c && forall k :: 0 <= k < r ==> s[k] != c
  {
    if s == [] then -1
    else if s[0] == c then 0
    else var t := IndexOfChar(s[1..], c); if t == -1 then -1 else t + 1
  }

  /** The schema's validator for each `notificationSettings.email.recipients`
      entry. */
  function IsRecipientEmail(s: string): (b: bool)
    ensures b <==> MatchesRecipientPattern(s)
  {
    var at := IndexOfChar(s, '@');
    var b := 0 < at
      && (forall k :: 0 <= k < |s| ==> !IsJsSpace(s[k]))
      && (forall k :: at < k < |s| ==> s[k] != '@')
      && (exists dot :: at + 1 < dot < |s| - 1 && s[dot] == '.');
    assert MatchesRecipientPattern(s) ==> b by {
      if MatchesRecipientPattern(s) {
        var at', dot :| 0 < at' && at' + 1 < dot < |s| - 1 && s[at'] == '@' && s[dot] == '.'
          && forall k :: 0 <= k < |s| ==> !IsJsSpace(s[k]) && (s[k] == '@' ==> k == at');
        assert at == at';
      }
    }
    b
  }

  // ---------------------------------------------------------------------------
  // Settings and billing sub-documents
  // ---------------------------------------------------------------------------

  datatype ScanSettings = ScanSettings(autoScan: bool, scanOnPush: bool, scanOnPullRequest: bool, maxConcurrentScans: int)
  datatype EmailNotifications = EmailNotifications(enabled: bool, recipients: seq<string>)
  datatype SlackNotifications = SlackNotifications(enabled: bool, webhookUrl: Option<string>, channel: string)
  datatype Settings = Settings(
    allowSelfRegistration: bool,
    requireEmailVerification: bool,
    defaultUserRole: string,
    scanSettings: ScanSettings,
    email: EmailNotifications,
    slack: SlackNotifications)

  /** The schema defaults of the `settings` sub-document; they pass the
      schema's own validators. */
  function DefaultSettings(): (s: Settings)
    ensures SettingsValid(s)
  {
    Settings(false, true, "developer", ScanSettings(true, true, true, 3),
             EmailNotifications(true, []), SlackNotifications(false, None, "#code-reviews"))
  }

  const UserRoles: set<string> := {"admin", "developer", "viewer"}
  const BillingStatuses: set<string> := {"active", "past_due", "canceled", "unpaid"}

  datatype Billing = Billing(
    customerId: Option<string>,
    subscriptionId: Option<string>,
    status: string,
    currentPeriodStart: nat,
    currentPeriodEnd: nat)

  predicate SettingsValid(s: Settings) {
    s.defaultUserRole in UserRoles
    && 1 <= s.scanSettings.maxConcurrentScans <= 10
    && forall r :: r in s.email.recipients ==> IsRecipientEmail(r)
  }

  // ---------------------------------------------------------------------------
  // Usage counters
  // ---------------------------------------------------------------------------

  datatype Usage = Usage(users: int, repositories: int, scansThisMonth: int, lastResetDate: nat)

  /** The `type` names `incrementUsage` and `decrementUsage` recognise. */
  const UsageKinds: set<string> := {"users", "repositories", "scans"}

  function Counter(u: Usage, kind: string): int
    requires kind in UsageKinds
  {
    if kind == "users" then u.users else if kind == "repositories" then u.repositories else u.scansThisMonth
  }

  predicate NonNegative(u: Usage) {
    u.users >= 0 && u.repositories >= 0 && u.scansThisMonth >= 0
  }

  function Max0(x: int): int {
    if x < 0 then 0 else x
  }

  /** `incrementUsage`: adds `amount` to the counter `kind` names, with no
      upper bound. */
  function Incremented(u: Usage, kind: string, amount: int): (r: Usage)
    ensures r.lastResetDate == u.lastResetDate
    ensures forall k :: k in UsageKinds ==> Counter(r, k) == Counter(u, k) + (if k == kind then amount else 0)
    ensures kind !in UsageKinds ==> r == u
    ensures NonNegative(u) && amount >= 0 ==> NonNegative(r)
  {
    if kind == "users" then u.(users := u.users + amount)
    else if kind == "repositories" then u.(repositories := u.repositories + amount)
    else if kind == "scans" then u.(scansThisMonth := u.scansThisMonth + amount)
    else u
  }

  /** `decrementUsage`: subtracts `amount` from the counter `kind` names and
      clamps it at zero. */
  function Decremented(u: Usage, kind: string, amount: int): (r: Usage)
    ensures r.lastResetDate == u.lastResetDate
    ensures forall k :: k in UsageKinds ==> Counter(r, k) == (if k == kind then Max0(Counter(u, k) - amount) else Counter(u, k))
    ensures kind !in UsageKinds ==> r == u
    ensures NonNegative(u) ==> NonNegative(r)
  {
    if kind == "users" then u.(users := Max0(u.users - amount))
    else if kind == "repositories" then u.(repositories := Max0(u.repositories - amount))
    else if kind == "scans" then u.(scansThisMonth := Max0(u.scansThisMonth - amount))
    else u
  }

  /** Removing what was just added restores the counters. */
  lemma DecrementUndoesIncrement(u: Usage, kind: string, amount: nat)
    requires NonNegative(u)
    ensures Decremented(Incremented(u, kind, amount), kind, amount) == u
  {
  }

  /** The filter and update of `resetMonthlyUsage` applied to one document:
      a document last reset before the first day of the month gets its scan
      counter zeroed and its reset date set to `now`. */
  function ResetIfStale(u: Usage, now: nat, firstDayOfMonth: nat): (r: Usage)
    requires firstDayOfMonth <= now
    ensures r.users == u.users && r.repositories == u.repositories
    ensures u.lastResetDate < firstDayOfMonth ==> r.scansThisMonth == 0 && r.lastResetDate == now
    ensures u.lastResetDate >= firstDayOfMonth ==> r == u
    ensures r.lastResetDate >= firstDayOfMonth
  {
    if u.lastResetDate < firstDayOfMonth then u.(scansThisMonth := 0, lastResetDate := now) else u
  }

  /** Running the reset again later in the same month, for instance twice on
      the same day, changes nothing. */
  lemma ResetStableWithinMonth(u: Usage, now: nat, later: nat, firstDayOfMonth: nat)
    requires firstDayOfMonth <= now <= later
    ensures ResetIfStale(ResetIfStale(u, now, firstDayOfMonth), later, firstDayOfMonth)
         == ResetIfStale(u, now, firstDayOfMonth)
  {
  }

  // ---------------------------------------------------------------------------
  // The document
  // ---------------------------------------------------------------------------

  class Organization {
    const id: nat
    var name: string
    var slug: string          // "" while no slug has been set
    var plan: string
    var maxUsers: int
    var maxRepositories: int
    var settings: Settings
    var billing: Billing
    var usage: Usage
    var nameModified: bool    // Mongoose's modified flag for `name`

    /** `new Organization({...})` with the schema's defaults; `periodEnd` is
        one calendar month after `now`. The `trim` setter applies to `name`. */
    constructor (id: nat, name: string, now: nat, periodEnd: nat,
                 plan: string := "free", maxUsers: int := 5, maxRepositories: int := 3)
      ensures this.id == id && this.name == Trim(name) && this.plan == plan
      ensures this.maxUsers == maxUsers && this.maxRepositories == maxRepositories
      ensures slug == "" && nameModified
      ensures settings == DefaultSettings()
      ensures billing == Billing(None, None, "active", now, periodEnd)
      ensures usage == Usage(0, 0, 0, now)
      ensures SchemaValid() <==>
        this.name != [] && Utf16Length(this.name) <= 100 && plan in Plans && maxUsers >= 1 && maxRepositories >= 1
    {
      this.id := id;
      this.name := Trim(name);
      this.plan := plan;
      this.maxUsers := maxUsers;
      this.maxRepositories := maxRepositories;
      slug := "";
      nameModified := true;
      settings := DefaultSettings();
      billing := Billing(None, None, "active", now, periodEnd);
      usage := Usage(0, 0, 0, now);
    }

    /** The schema's enums, bounds and `required` constraints. */
    predicate SchemaValid()
      reads this
    {
      name != [] && Utf16Length(name) <= 100 && plan in Plans
      && maxUsers >= 1 && maxRepositories >= 1
      && SettingsValid(settings) && billing.status in BillingStatuses
    }

    /** The slug the pre-save hook leaves: derived from the name only when the
        name was modified and no slug is set. */
    function SlugAfterSave(): (s: string)
      reads this
      ensures slug != "" ==> s == slug
      ensures !nameModified ==> s == slug
    {
      if nameModified && slug == "" then Slugify(name) else slug
    }

    /** `save()`: validation runs first; a document that fails it is
        rejected before any pre-save hook runs and stays as it was. A
        document that passes gets the slug hook, after which no path is
        modified. */
    method Save() returns (saved: bool)
      modifies this`slug, this`nameModified
      ensures saved == old(SchemaValid())
      ensures saved ==> slug == old(SlugAfterSave()) && !nameModified
      ensures !saved ==> slug == old(slug) && nameModified == old(nameModified)
      ensures SchemaValid() == old(SchemaValid())
    {
      saved := SchemaValid();
      if !saved {
        return;
      }
      if nameModified && slug == "" {
        slug := Slugify(name);
      }
      nameModified := false;
    }

    /** The `limits` virtual. */
    function Limits(): (l: Limits)
      reads this
      ensures l == PlanLimits(plan)
    {
      PlanLimits(plan)
    }

    /** Compares with the document's own `maxUsers`, not with the plan's:
        one more user fits under the stored maximum. */
    function CanAddUser(): (ok: bool)
      reads this
      ensures ok <==> Incremented(usage, "users", 1).users <= maxUsers
    {
      usage.users < maxUsers
    }

    /** Compares with the document's own `maxRepositories`: one more
        repository fits under the stored maximum. */
    function CanAddRepository(): (ok: bool)
      reads this
      ensures ok <==> Incremented(usage, "repositories", 1).repositories <= maxRepositories
    {
      usage.repositories < maxRepositories
    }

    /** Compares with the plan's monthly scan limit: one more scan fits under
        the limit of the plan, whatever the stored maxima say. */
    function CanPerformScan(): (ok: bool)
      reads this
      ensures ok <==> Incremented(usage, "scans", 1).scansThisMonth <= PlanLimits(plan).maxScansPerMonth
    {
      usage.scansThisMonth < Limits().maxScansPerMonth
    }

    /** `incrementUsage`: the counter changes in the document whether or not
        the `save()` that follows succeeds. */
    method IncrementUsage(kind: string, amount: int := 1) returns (saved: bool)
      modifies this`usage, this`slug, this`nameModified
      ensures usage == Incremented(old(usage), kind, amount)
      ensures saved == old(SchemaValid())
      ensures saved ==> slug == old(SlugAfterSave()) && !nameModified
      ensures !saved ==> slug == old(slug) && nameModified == old(nameModified)
    {
      usage := Incremented(usage, kind, amount);
      saved := Save();
    }

    /** `decrementUsage`, clamping the counter at zero. */
    method DecrementUsage(kind: string, amount: int := 1) returns (saved: bool)
      modifies this`usage, this`slug, this`nameModified
      ensures usage == Decremented(old(usage), kind, amount)
      ensures saved == old(SchemaValid())
      ensures saved ==> slug == old(SlugAfterSave()) && !nameModified
      ensures !saved ==> slug == old(slug) && nameModified == old(nameModified)
    {
      usage := Decremented(usage, kind, amount);
      saved := Save();
    }
  }

  /** `new Organization({...})` on the free plan followed by `save()`: the
      name is trimmed, and the save succeeds exactly when the name and the
      two quotas meet the schema. Only then does the hook derive the slug
      and leave nothing modified. */
  method NewSavedOrganization(id: nat, name: string, now: nat, periodEnd: nat, maxUsers: int, maxRepositories: int)
    returns (o: Organization, saved: bool)
    ensures fresh(o)
    ensures saved <==> Trim(name) != [] && Utf16Length(Trim(name)) <= 100 && maxUsers >= 1 && maxRepositories >= 1
    ensures o.SchemaValid() == saved
    ensures o.id == id && o.name == Trim(name)
    ensures saved ==> o.slug == Slugify(Trim(name)) && !o.nameModified
    ensures !saved ==> o.slug == "" && o.nameModified
    ensures o.plan == "free" && o.maxUsers == maxUsers && o.maxRepositories == maxRepositories
    ensures o.settings == DefaultSettings() && o.billing == Billing(None, None, "active", now, periodEnd)
    ensures o.usage == Usage(0, 0, 0, now)
  {
    o := new Organization(id, name, now, periodEnd, "free", maxUsers, maxRepositories);
    saved := o.Save();
  }

  /** `resetMonthlyUsage`: one `updateMany` over the collection. It bypasses
      document middleware, so only `usage` changes. */
  method ResetMonthlyUsage(orgs: set<Organization>, now: nat, firstDayOfMonth: nat)
    requires firstDayOfMonth <= now
    modifies orgs`usage
    ensures forall o :: o in orgs ==> o.usage == ResetIfStale(old(o.usage), now, firstDayOfMonth)
  {
    forall o | o in orgs {
      o.usage := ResetIfStale(o.usage, now, firstDayOfMonth);
    }
  }
}
