/** The offline log (src/machines.c): a page of five entries in RAM that spills to numbered flash pages, ten at
    most, and is drained backwards. */
module OfflineLog {
  import opened Base64
  import opened Base64Proofs
  import opened Pattern
  import opened Flash
  import opened Machine

  const PER_PAGE := 5    // LOGS_PER_PAGE
  const MAX_PAGES := 10  // MAX_LOGS_PAGES
  const DIGITS := 4
  const ENTRY_BYTES := 32

  // hub_offline_log: a machine's name and its flags at that moment
  datatype LogEntry = LogEntry(resource: Byte, flags: Flags)

  const BLANK := LogEntry(0, Flags(Disabled, IsRunning, NoControl, SameSequence, ""))

  predicate ValidPage(es: seq<LogEntry>) {
    |es| == PER_PAGE && forall i :: 0 <= i < PER_PAGE ==> ValidFlags(es[i].flags)
  }

  // ---------------------------------------------------------------- pages as texts

  function EntryBytes(e: LogEntry): (b: seq<Byte>)
    requires ValidFlags(e.flags)
    ensures |b| == ENTRY_BYTES
  {
    var f := e.flags;
    [e.resource, 0, 0, 0]
    + EnumBytes(if f.idle == IsIdle then 1 else 0)
    + EnumBytes(if f.allowed == Enabled then 1 else 0)
    + EnumBytes(match f.control case NoControl => 0 case HubControl => 1 case TxnControl => 2)
    + EnumBytes(if f.changed == NewSequence then 1 else 0)
    + NameBytes(f.action) + Zeros(3)
  }

  function EntryOf(b: seq<Byte>): LogEntry
    requires |b| == ENTRY_BYTES
  {
    LogEntry(b[0], Flags(
      if b[8] == 0 then Disabled else Enabled,
      if b[4] == 0 then IsRunning else IsIdle,
      if b[12] == 0 then NoControl else if b[12] == 1 then HubControl else TxnControl,
      if b[16] == 0 then SameSequence else NewSequence,
      NameOf(b[20..29])))
  }

  lemma EntryRoundTrip(e: LogEntry)
    requires ValidFlags(e.flags)
    ensures EntryOf(EntryBytes(e)) == e
  {
    assert EntryBytes(e)[20..29] == NameBytes(e.flags.action);
    NameRoundTrip(e.flags.action, NameBytes(e.flags.action));
  }

  // What the static array holds at first: zeros.
  lemma BlankIsZero()
    ensures EntryOf(Zeros(ENTRY_BYTES)) == BLANK
  {
  }

  function PageBytes(es: seq<LogEntry>): (b: seq<Byte>)
    requires forall i :: 0 <= i < |es| ==> ValidFlags(es[i].flags)
    ensures |b| == ENTRY_BYTES * |es|
  {
    if es == [] then [] else EntryBytes(es[0]) + PageBytes(es[1..])
  }

  function PageOf(b: seq<Byte>, n: nat): (es: seq<LogEntry>)
    requires |b| == ENTRY_BYTES * n
    ensures |es| == n
  {
    if n == 0 then [] else [EntryOf(b[..ENTRY_BYTES])] + PageOf(b[ENTRY_BYTES..], n - 1)
  }

  lemma {:induction false} PageRoundTrip(es: seq<LogEntry>)
    requires forall i :: 0 <= i < |es| ==> ValidFlags(es[i].flags)
    ensures PageOf(PageBytes(es), |es|) == es
  {
    hide EntryBytes, EntryOf;
    if es != [] {
      assert PageBytes(es)[..ENTRY_BYTES] == EntryBytes(es[0]);
      assert PageBytes(es)[ENTRY_BYTES..] == PageBytes(es[1..]);
      EntryRoundTrip(es[0]);
      PageRoundTrip(es[1..]);
    }
  }

  function PageText(es: seq<LogEntry>): string
    requires ValidPage(es)
  {
    Encode(PageBytes(es))
  }

  // Decoding a page over the RAM page; a text that does not decode leaves it alone.
  function LoadPage(text: string, ram: seq<LogEntry>): (es: seq<LogEntry>)
    requires ValidPage(ram)
    ensures |es| == PER_PAGE
  {
    var size := ENTRY_BYTES * PER_PAGE;
    if Decodable(text) && Needed(text) <= size then PageOf(Overlay(text, PageBytes(ram)), PER_PAGE) else ram
  }

  lemma SavedPage(es: seq<LogEntry>, ram: seq<LogEntry>)
    requires ValidPage(es) && ValidPage(ram)
    ensures LoadPage(PageText(es), ram) == es
  {
    var b, buf := PageBytes(es), PageBytes(ram);
    OverlayRestores(b, buf);
    assert b + buf[|b|..] == b;
    PageRoundTrip(es);
  }

  function PageName(p: nat): string
    requires p < Pow10(DIGITS)
  {
    "log-" + Decimal(p, DIGITS)
  }

  lemma Names()
    ensures Pow10(DIGITS) == 10000
    ensures forall p: nat, q: nat | p < 10000 && q < 10000 :: PageName(p) == PageName(q) ==> p == q
  {
    assert Pow10(4) == 10000 by { assert Pow10(1) == 10; assert Pow10(2) == 100; assert Pow10(3) == 1000; }
    forall p: nat, q: nat | p < 10000 && q < 10000 && PageName(p) == PageName(q) ensures p == q {
      assert PageName(p)[4..] == Decimal(p, DIGITS) && PageName(q)[4..] == Decimal(q, DIGITS);
      DecimalInjective(p, q, DIGITS);
    }
  }

  lemma Small()
    ensures MAX_PAGES < Pow10(DIGITS)
  {
    Names();
  }

  // ---------------------------------------------------------------- the log as the code keeps it

  // offline_logs, ram_offline_logs, offline_log_page, need_monitor_dump
  datatype Log = Log(ram: seq<LogEntry>, count: nat, page: nat, dump: bool, flash: Store)

  predicate Sound(s: Log) {
    ValidPage(s.ram) && s.count <= PER_PAGE && s.page <= MAX_PAGES
  }

  // rotate_logs
  function Rotate(s: Log): (t: Log)
    requires Sound(s)
    ensures Sound(t)
  {
    Small();
    var at := if s.page >= MAX_PAGES then 0 else s.page;
    s.(flash := s.flash[PageName(at) := PageText(s.ram)], page := at + 1)
  }

  // log_transaction_step with logging on
  function Append(s: Log, e: LogEntry): (t: Log)
    requires Sound(s) && ValidFlags(e.flags)
    ensures Sound(t)
  {
    var u := if s.count > PER_PAGE - 1 then Rotate(s.(count := 0)) else s;
    u.(ram := u.ram[u.count := e], count := u.count + 1, dump := true)
  }

  // rewind_log
  function Rewind(s: Log): Log
    requires Sound(s) && s.page > 0
  {
    Small();
    s.(ram := LoadPage(TextAt(s.flash, PageName(s.page - 1)), s.ram), page := s.page - 1)
  }

  // What unlog_transaction_step hands out. With a full page it reads one entry past the array, where there is
  // whatever the memory holds.
  function Handed(s: Log, beyond: LogEntry): LogEntry
    requires Sound(s)
  {
    if s.count < PER_PAGE then s.ram[s.count] else beyond
  }

  // And the state it leaves.
  function Unlog(s: Log): Log
    requires Sound(s)
  {
    if s.count > 0 then s.(count := s.count - 1)
    else if s.page >= 1 then Rewind(s).(count := PER_PAGE - 1)
    else s.(dump := false)
  }

  // logs_flush_ram, as far as the drain that follows it is concerned.
  function FlushRam(s: Log): Log {
    s.(count := 0)
  }

  // ---------------------------------------------------------------- what the log holds

  function PageAt(f: Store, p: nat): (es: seq<LogEntry>)
    requires p < Pow10(DIGITS)
    ensures |es| == PER_PAGE
  {
    LoadPage(TextAt(f, PageName(p)), seq(PER_PAGE, _ => BLANK))
  }

  function PagesUpTo(f: Store, p: nat): (es: seq<LogEntry>)
    requires p < Pow10(DIGITS)
    ensures |es| == PER_PAGE * p
  {
    if p == 0 then [] else PagesUpTo(f, p - 1) + PageAt(f, p - 1)
  }

  // The saved pages in order, then what RAM adds to them.
  function Retained(s: Log): seq<LogEntry>
    requires Sound(s)
  {
    Small();
    PagesUpTo(s.flash, s.page) + s.ram[..s.count]
  }

  // The page counter after q rotations.
  function PageCount(q: nat): (p: nat)
    ensures p <= MAX_PAGES && p <= q
  {
    if q == 0 then 0 else if PageCount(q - 1) >= MAX_PAGES then 1 else PageCount(q - 1) + 1
  }

  // Entry i of the history is the first of its page.
  predicate PageHolds(f: Store, p: nat, all: seq<LogEntry>, i: nat)
    requires p < Pow10(DIGITS)
  {
    && i + PER_PAGE <= |all| && ValidPage(all[i..i + PER_PAGE])
    && PageName(p) in f && f[PageName(p)] == PageText(all[i..i + PER_PAGE])
  }

  // Saved page p holds its part of the history after q rotations.
  ghost predicate Kept(s: Log, all: seq<LogEntry>, q: nat, p: nat)
    requires p < s.page <= q && s.page <= MAX_PAGES < Pow10(DIGITS)
  {
    PageHolds(s.flash, p, all, PER_PAGE * (q - s.page + p))
  }

  // After q rotations: the RAM page holds the newest entries followed by what is left of the page before.
  ghost predicate Logged(s: Log, all: seq<LogEntry>, q: nat) {
    && Sound(s) && s.page == PageCount(q) && (q > 0 ==> s.count > 0)
    && |all| == PER_PAGE * q + s.count
    && (forall i :: 0 <= i < s.count ==> s.ram[i] == all[PER_PAGE * q + i])
    && (forall i :: s.count <= i < PER_PAGE ==> s.ram[i] == if q == 0 then BLANK else all[PER_PAGE * (q - 1) + i])
    && MAX_PAGES < Pow10(DIGITS)
    && forall p: nat :: p < s.page ==> Kept(s, all, q, p)
  }

  lemma StillHolds(f: Store, p: nat, all: seq<LogEntry>, e: LogEntry, i: nat)
    requires p < Pow10(DIGITS) && PageHolds(f, p, all, i)
    ensures PageHolds(f, p, all + [e], i)
  {
    hide ValidPage, PageText, PageName;
    assert (all + [e])[i..i + PER_PAGE] == all[i..i + PER_PAGE];
  }

  lemma AppendWithRoom(s: Log, all: seq<LogEntry>, q: nat, e: LogEntry)
    requires Logged(s, all, q) && ValidFlags(e.flags) && s.count < PER_PAGE
    ensures Logged(Append(s, e), all + [e], q)
  {
    hide PageHolds, ValidFlags, Rotate;
    forall p: nat | p < s.page ensures Kept(Append(s, e), all + [e], q, p) {
      assert Kept(s, all, q, p);
      StillHolds(s.flash, p, all, e, PER_PAGE * (q - s.page + p));
    }
  }

  // The pages after a rotation: the one just saved, and those before it.
  lemma RotatedKept(s: Log, all: seq<LogEntry>, q: nat, e: LogEntry, p: nat)
    requires Logged(s, all, q) && ValidFlags(e.flags) && s.count == PER_PAGE && p < Append(s, e).page
    ensures Append(s, e).page <= q + 1 && Kept(Append(s, e), all + [e], q + 1, p)
  {
    hide PageText, PageName, ValidFlags;
    Names();
    assert all[PER_PAGE * q..PER_PAGE * q + PER_PAGE] == s.ram;
    var t := Append(s, e);
    if p < t.page - 1 {
      assert Kept(s, all, q, p);
      assert PageHolds(t.flash, p, all, PER_PAGE * (q - s.page + p));
    } else {
      assert PageHolds(t.flash, p, all, PER_PAGE * q);
    }
    StillHolds(t.flash, p, all, e, PER_PAGE * (q + 1 - t.page + p));
  }

  lemma AppendWhenFull(s: Log, all: seq<LogEntry>, q: nat, e: LogEntry)
    requires Logged(s, all, q) && ValidFlags(e.flags) && s.count == PER_PAGE
    ensures Logged(Append(s, e), all + [e], q + 1)
  {
    hide PageHolds, PageText, PageName, ValidFlags, Kept;
    var t, more, r := Append(s, e), all + [e], q + 1;
    forall p: nat | p < t.page ensures Kept(t, more, r, p) {
      RotatedKept(s, all, q, e, p);
    }
  }

  lemma AppendLogs(s: Log, all: seq<LogEntry>, q: nat, e: LogEntry)
    requires Logged(s, all, q) && ValidFlags(e.flags)
    ensures Logged(Append(s, e), all + [e], if s.count == PER_PAGE then q + 1 else q)
  {
    hide Kept, ValidFlags, Append;
    if s.count == PER_PAGE { AppendWhenFull(s, all, q, e); } else { AppendWithRoom(s, all, q, e); }
  }

  lemma LoggedSound(s: Log, all: seq<LogEntry>, q: nat)
    requires Logged(s, all, q)
    ensures Sound(s)
  {
  }

  function AppendAll(s: Log, es: seq<LogEntry>): (t: Log)
    requires Sound(s) && forall i :: 0 <= i < |es| ==> ValidFlags(es[i].flags)
    ensures Sound(t)
    decreases |es|
  {
    if es == [] then s else AppendAll(Append(s, es[0]), es[1..])
  }

  lemma {:induction false} AppendAllLogs(s: Log, all: seq<LogEntry>, q: nat, es: seq<LogEntry>) returns (r: nat)
    requires Logged(s, all, q) && forall i :: 0 <= i < |es| ==> ValidFlags(es[i].flags)
    ensures Logged(AppendAll(s, es), all + es, r)
    decreases |es|
  {
    hide Logged, ValidFlags, Append, Kept;
    assert Sound(s) by { LoggedSound(s, all, q); }
    r := q;
    if es == [] {
      assert all + es == all;
    } else {
      AppendLogs(s, all, q, es[0]);
      r := AppendAllLogs(Append(s, es[0]), all + [es[0]], if s.count == PER_PAGE then q + 1 else q, es[1..]);
      assert all + [es[0]] + es[1..] == all + es;
    }
  }

  lemma PageReads(f: Store, all: seq<LogEntry>, i: nat, p: nat)
    requires p < Pow10(DIGITS) && PageHolds(f, p, all, i)
    ensures i + PER_PAGE <= |all| && PageAt(f, p) == all[i..i + PER_PAGE]
  {
    hide LoadPage, PageText, PageName;
    SavedPage(all[i..i + PER_PAGE], seq(PER_PAGE, _ => BLANK));
  }

  lemma {:induction false} PagesAreSlice(f: Store, all: seq<LogEntry>, i: nat, p: nat)
    requires p < Pow10(DIGITS) && forall j: nat :: j < p ==> PageHolds(f, j, all, i + PER_PAGE * j)
    ensures i + PER_PAGE * p <= |all| || p == 0
    ensures p > 0 ==> PagesUpTo(f, p) == all[i..i + PER_PAGE * p]
  {
    hide PageHolds, PageAt;
    if p > 0 {
      var at := i + PER_PAGE * (p - 1);
      PageReads(f, all, at, p - 1);
      PagesAreSlice(f, all, i, p - 1);
      if p == 1 {
        assert PagesUpTo(f, 0) == [];
      } else {
        assert all[i..at] + all[at..at + PER_PAGE] == all[i..at + PER_PAGE];
      }
    }
  }

  lemma LoggedMeans(s: Log, all: seq<LogEntry>, q: nat)
    requires Logged(s, all, q)
    ensures Sound(s) && s.page <= q && |all| == PER_PAGE * q + s.count
    ensures s.ram[..s.count] == all[PER_PAGE * q..]
  {
    hide Kept;
  }

  lemma SavedPages(s: Log, all: seq<LogEntry>, q: nat)
    requires Logged(s, all, q)
    ensures s.page <= q && PER_PAGE * q <= |all| && s.page < Pow10(DIGITS)
    ensures PagesUpTo(s.flash, s.page) == all[PER_PAGE * (q - s.page)..PER_PAGE * q]
  {
    hide PageHolds, PageAt;
    var i := PER_PAGE * (q - s.page);
    forall j: nat | j < s.page ensures PageHolds(s.flash, j, all, i + PER_PAGE * j) {
      assert Kept(s, all, q, j);
    }
    PagesAreSlice(s.flash, all, i, s.page);
  }

  /** What the log holds is a suffix of everything logged: 5*page+count entries, without a gap. */
  lemma RetainedIsSuffix(s: Log, all: seq<LogEntry>, q: nat)
    requires Logged(s, all, q)
    ensures PER_PAGE * s.page + s.count <= |all|
    ensures Retained(s) == all[|all| - (PER_PAGE * s.page + s.count)..]
  {
    hide Logged, PagesUpTo;
    LoggedMeans(s, all, q);
    SavedPages(s, all, q);
    var i := PER_PAGE * (q - s.page);
    assert all[i..PER_PAGE * q] + all[PER_PAGE * q..] == all[i..];
  }

  lemma {:induction false} PageCountUpToTen(q: nat)
    ensures PageCount(q) == q <==> q <= MAX_PAGES
    decreases q
  {
    if q > 0 { PageCountUpToTen(q - 1); }
  }

  /** From an empty log, everything is still there exactly up to the 55th entry. */
  lemma WholeIff(s: Log, es: seq<LogEntry>)
    requires Sound(s) && s.count == 0 && s.page == 0 && s.ram == seq(PER_PAGE, _ => BLANK)
    requires forall i :: 0 <= i < |es| ==> ValidFlags(es[i].flags)
    ensures var t := AppendAll(s, es);
      && PER_PAGE * t.page + t.count <= |es|
      && Retained(t) == es[|es| - (PER_PAGE * t.page + t.count)..]
      && (Retained(t) == es <==> |es| <= 55)
  {
    hide PageHolds, PagesUpTo, Append;
    Small();
    assert Logged(s, [], 0);
    var q := AppendAllLogs(s, [], 0, es);
    var t := AppendAll(s, es);
    assert [] + es == es;
    RetainedIsSuffix(t, es, q);
    PageCountUpToTen(q);
    assert |Retained(t)| == PER_PAGE * t.page + t.count;
  }

  // ---------------------------------------------------------------- draining

  function Reverse<T>(s: seq<T>): (r: seq<T>)
    ensures |r| == |s|
  {
    if s == [] then [] else [s[|s| - 1]] + Reverse(s[..|s| - 1])
  }

  lemma {:induction false} ReverseAt<T>(s: seq<T>, i: nat)
    requires i < |s|
    ensures Reverse(s)[i] == s[|s| - 1 - i]
  {
    if i > 0 { ReverseAt(s[..|s| - 1], i - 1); }
  }

  ghost predicate HasPage(f: Store, p: nat)
    requires p < Pow10(DIGITS)
  {
    PageName(p) in f && exists es :: ValidPage(es) && f[PageName(p)] == PageText(es)
  }

  // What a drain relies on.
  ghost predicate Drainable(s: Log) {
    Sound(s) && MAX_PAGES < Pow10(DIGITS) && forall p: nat :: p < s.page ==> HasPage(s.flash, p)
  }

  lemma RewindReads(s: Log)
    requires Drainable(s) && s.page > 0
    ensures Drainable(Rewind(s).(count := PER_PAGE - 1))
    ensures Rewind(s).ram == PageAt(s.flash, s.page - 1)
  {
    hide PageText, LoadPage, PageName;
    assert HasPage(s.flash, s.page - 1);
    var es :| ValidPage(es) && s.flash[PageName(s.page - 1)] == PageText(es);
    SavedPage(es, s.ram);
    SavedPage(es, seq(PER_PAGE, _ => BLANK));
  }

  lemma UnlogDrainable(s: Log)
    requires Drainable(s)
    ensures Drainable(Unlog(s))
  {
    hide Rewind, PageText;
    if s.count == 0 && s.page > 0 { RewindReads(s); }
  }

  ghost function DrainState(s: Log, k: nat): (t: Log)
    requires Drainable(s)
    ensures Drainable(t)
    decreases k
  {
    UnlogDrainable(s);
    if k == 0 then s else DrainState(Unlog(s), k - 1)
  }

  ghost function Drained(s: Log, beyond: LogEntry, k: nat): (es: seq<LogEntry>)
    requires Drainable(s)
    ensures |es| == k
    decreases k
  {
    UnlogDrainable(s);
    if k == 0 then [] else [Handed(s, beyond)] + Drained(Unlog(s), beyond, k - 1)
  }

  // What a drain has before it: the saved pages, then RAM up to and with the entry under the cursor.
  function Contents(s: Log, beyond: LogEntry): seq<LogEntry>
    requires Sound(s)
  {
    Small();
    PagesUpTo(s.flash, s.page) + (s.ram + [beyond])[..s.count + 1]
  }

  function Left(s: Log): nat {
    PER_PAGE * s.page + s.count
  }

  lemma UnlogTakesLast(s: Log, beyond: LogEntry)
    requires Drainable(s)
    ensures Drainable(Unlog(s)) && |Contents(s, beyond)| == Left(s) + 1
    ensures Contents(s, beyond)[Left(s)] == Handed(s, beyond)
    ensures Left(s) > 0 ==>
      Left(Unlog(s)) == Left(s) - 1 && Contents(Unlog(s), beyond) == Contents(s, beyond)[..Left(s)]
  {
    hide PageAt, Rewind, HasPage, Drainable;
    DrainableMeans(s);
    UnlogDrainable(s);
    var head := (s.ram + [beyond])[..s.count + 1];
    assert Contents(s, beyond) == PagesUpTo(s.flash, s.page) + head && head[s.count] == Handed(s, beyond);
    if s.count == 0 && s.page > 0 {
      RewindReads(s);
      RewindMoves(s);
      assert Unlog(s).ram == PageAt(s.flash, s.page - 1);
      assert (Unlog(s).ram + [beyond])[..PER_PAGE] == Unlog(s).ram;
    }
  }

  /** A drain hands out RAM slots count..0 and then every saved page from its last slot to its first, newest
      page first, each once. */
  lemma {:induction false} DrainReverses(s: Log, beyond: LogEntry)
    requires Drainable(s)
    ensures Drained(s, beyond, Left(s) + 1) == Reverse(Contents(s, beyond))
    decreases Left(s)
  {
    hide Contents, Unlog, Drainable, Left, Handed;
    DrainableMeans(s);
    UnlogTakesLast(s, beyond);
    var c := Contents(s, beyond);
    if Left(s) > 0 {
      DrainReverses(Unlog(s), beyond);
    } else {
      assert c[..0] == [];
      assert Drained(Unlog(s), beyond, 0) == [];
    }
  }

  /** Index by index: what call i hands out. */
  lemma DrainedAt(s: Log, beyond: LogEntry, i: nat)
    requires Drainable(s) && i <= Left(s)
    ensures |Contents(s, beyond)| == Left(s) + 1
    ensures Drained(s, beyond, Left(s) + 1)[i] == Contents(s, beyond)[Left(s) - i]
  {
    hide Contents, Drained, Drainable, Left, Reverse;
    DrainableMeans(s);
    DrainReverses(s, beyond);
    ReverseAt(Contents(s, beyond), i);
  }

  // Only the first call can read past the page.
  lemma {:induction false} DrainedInside(s: Log, b: LogEntry, c: LogEntry, k: nat)
    requires Drainable(s) && s.count < PER_PAGE
    ensures Drained(s, b, k) == Drained(s, c, k)
    decreases k
  {
    hide Rewind, HasPage;
    UnlogDrainable(s);
    if k > 0 { DrainedInside(Unlog(s), b, c, k - 1); }
  }

  lemma RewindMoves(s: Log)
    requires Sound(s) && s.page > 0
    ensures Rewind(s).page == s.page - 1 && Rewind(s).flash == s.flash && Rewind(s).dump == s.dump
  {
  }

  lemma DrainableMeans(s: Log)
    requires Drainable(s)
    ensures Sound(s) && MAX_PAGES < Pow10(DIGITS)
  {
  }

  /** Every call brings the end one nearer, and the dump request is withdrawn by the last call and not before. */
  lemma {:induction false} DrainEnds(s: Log, k: nat)
    requires Drainable(s)
    ensures k <= Left(s) ==> Left(DrainState(s, k)) == Left(s) - k && DrainState(s, k).dump == s.dump
    ensures !DrainState(s, Left(s) + 1).dump
    decreases Left(s)
  {
    hide Rewind, Drainable, HasPage;
    DrainableMeans(s);
    UnlogDrainable(s);
    if s.count == 0 && s.page > 0 { RewindMoves(s); }
    if Left(s) > 0 {
      DrainEnds(Unlog(s), if k > 0 then k - 1 else 0);
    } else {
      assert DrainState(Unlog(s), 0) == Unlog(s);
    }
  }

  lemma {:induction false} LoggingAsksForDump(s: Log, es: seq<LogEntry>)
    requires Sound(s) && forall i :: 0 <= i < |es| ==> ValidFlags(es[i].flags)
    ensures AppendAll(s, es).dump == (s.dump || es != [])
    decreases |es|
  {
    if es != [] { LoggingAsksForDump(Append(s, es[0]), es[1..]); }
  }

  /** Whatever was logged is asked to be drained: once anything was, the dump request stands through every call that
      hands out something retained, and is withdrawn by the one after. Without it nothing stands. */
  lemma LoggedIsDrained(s: Log, es: seq<LogEntry>, k: nat)
    requires Sound(s) && s.count == 0 && s.page == 0 && s.ram == seq(PER_PAGE, _ => BLANK) && !s.dump
    requires forall i :: 0 <= i < |es| ==> ValidFlags(es[i].flags)
    ensures var t := AppendAll(s, es);
      && Drainable(t) && Left(t) == |Retained(t)|
      && (k <= Left(t) ==> DrainState(t, k).dump == (es != []))
      && !DrainState(t, Left(t) + 1).dump
  {
    hide PageHolds, Append, HasPage, PagesUpTo, DrainState, Kept;
    Small();
    assert Logged(s, [], 0);
    var q := AppendAllLogs(s, [], 0, es);
    var t := AppendAll(s, es);
    assert [] + es == es;
    LoggedDrains(t, es, q);
    LoggingAsksForDump(s, es);
    hide Drainable;
    DrainEnds(t, k);
  }

  lemma LoggedDrains(s: Log, all: seq<LogEntry>, q: nat)
    requires Logged(s, all, q)
    ensures Drainable(s)
  {
    hide PageText, PageName;
    forall p: nat | p < s.page ensures HasPage(s.flash, p) {
      assert Kept(s, all, q, p);
    }
  }

  /** Draining right after logging: the cursor points past the newest entry, so the first thing handed out is what
      lies past a full page, or else is left over from the page before (or blank, if there is none); then comes
      everything retained, newest first, each once. */
  lemma DrainAfterLogging(s: Log, all: seq<LogEntry>, q: nat, beyond: LogEntry)
    requires Logged(s, all, q)
    ensures Drainable(s)
    ensures var stale := if s.count == PER_PAGE then beyond else if q == 0 then BLANK
                         else all[PER_PAGE * (q - 1) + s.count];
      Drained(s, beyond, Left(s) + 1) == [stale] + Reverse(Retained(s))
  {
    hide PageHolds, PagesUpTo, Drained, Drainable;
    Small();
    LoggedDrains(s, all, q);
    DrainReverses(s, beyond);
    var c := Contents(s, beyond);
    assert c[..|c| - 1] == Retained(s);
  }

  // The page is full after every fifth entry.
  lemma FullIff(s: Log, all: seq<LogEntry>, q: nat)
    requires Logged(s, all, q)
    ensures s.count == PER_PAGE <==> |all| > 0 && |all| % PER_PAGE == 0
  {
    hide Kept;
  }

  /** From an empty log, what a drain hands out depends on the memory past the page if and only if a positive
      multiple of five entries was logged; after logs_flush_ram it never does. */
  lemma ReadsOutsideIff(s: Log, es: seq<LogEntry>, k: nat)
    requires Sound(s) && s.count == 0 && s.page == 0 && s.ram == seq(PER_PAGE, _ => BLANK) && k > 0
    requires forall i :: 0 <= i < |es| ==> ValidFlags(es[i].flags)
    ensures var t := AppendAll(s, es);
      && Drainable(t) && Drainable(FlushRam(t))
      && ((exists b, c :: Drained(t, b, k) != Drained(t, c, k)) <==> |es| > 0 && |es| % PER_PAGE == 0)
      && forall b, c :: Drained(FlushRam(t), b, k) == Drained(FlushRam(t), c, k)
  {
    hide PageHolds, Append, HasPage;
    Small();
    assert Logged(s, [], 0);
    var q := AppendAllLogs(s, [], 0, es);
    var t := AppendAll(s, es);
    assert [] + es == es;
    LoggedDrains(t, es, q);
    FlushDrains(t, es, q);
    FullIff(t, es, q);
    hide Logged, Drainable, Rewind;
    forall b, c ensures Drained(FlushRam(t), b, k) == Drained(FlushRam(t), c, k) {
      DrainedInside(FlushRam(t), b, c, k);
    }
    if t.count == PER_PAGE {
      var other := BLANK.(resource := 1);
      assert Drained(t, BLANK, k)[0] == BLANK && Drained(t, other, k)[0] == other;
      assert Drained(t, BLANK, k) != Drained(t, other, k);
    } else {
      forall b, c ensures Drained(t, b, k) == Drained(t, c, k) { DrainedInside(t, b, c, k); }
    }
  }

  lemma FlushDrains(s: Log, all: seq<LogEntry>, q: nat)
    requires Logged(s, all, q)
    ensures Drainable(FlushRam(s))
  {
    hide PageText, PageName;
    forall p: nat | p < s.page ensures HasPage(s.flash, p) {
      assert Kept(s, all, q, p);
    }
  }

  /** Draining after logs_flush_ram, which resets the cursor first: of the RAM page only its first entry is
      handed out, so exactly the later ones are lost. */
  lemma FlushThenDrain(s: Log, all: seq<LogEntry>, q: nat, beyond: LogEntry)
    requires Logged(s, all, q) && s.count > 0
    ensures Drainable(FlushRam(s)) && PER_PAGE * (q - s.page) >= 0
    ensures Drained(FlushRam(s), beyond, PER_PAGE * s.page + 1)
         == Reverse(all[PER_PAGE * (q - s.page)..|all| - (s.count - 1)])
  {
    hide PagesUpTo, Drained, PageText, PageName, Logged, Drainable;
    var t := FlushRam(s);
    FlushDrains(s, all, q);
    DrainReverses(t, beyond);
    LoggedMeans(s, all, q);
    SavedPages(s, all, q);
    var i := PER_PAGE * (q - s.page);
    assert (s.ram + [beyond])[..1] == s.ram[..1] == s.ram[..s.count][..1] == all[PER_PAGE * q..][..1];
    assert all[i..PER_PAGE * q] + all[PER_PAGE * q..][..1] == all[i..PER_PAGE * q + 1];
  }

  // ---------------------------------------------------------------- on the static page

  class LogTable {
    const logs: array<LogEntry> // offline_logs
    var count: nat
    var page: nat
    var dump: bool
    var nvs: Store

    ghost predicate Valid()
      reads this, logs
    {
      logs.Length == PER_PAGE && Sound(Value())
    }

    ghost function Value(): Log
      reads this, logs
    {
      Log(logs[..], count, page, dump, nvs)
    }

    constructor (flash: Store)
      ensures Valid() && Value() == Log(seq(PER_PAGE, _ => BLANK), 0, 0, false, flash) && fresh(logs)
    {
      logs := new LogEntry[PER_PAGE](_ => BLANK);
      count, page, dump, nvs := 0, 0, false, flash;
      new;
      assert logs[..] == seq(PER_PAGE, _ => BLANK);
    }

    method RotateLogs()
      requires Valid()
      modifies this`page, this`nvs
      ensures Valid() && Value() == Rotate(old(Value()))
    {
      Small();
      if page >= MAX_PAGES {
        page := 0;
      }
      nvs := nvs[PageName(page) := PageText(logs[..])];
      page := page + 1;
    }

    method LogStep(e: LogEntry)
      requires Valid() && ValidFlags(e.flags)
      modifies this, logs
      ensures Valid() && Value() == Append(old(Value()), e)
    {
      dump := true;
      if count > PER_PAGE - 1 {
        count := 0;
        RotateLogs();
      }
      logs[count] := e;
      count := count + 1;
    }

    method RewindLog()
      requires Valid() && page > 0
      modifies this`page, logs
      ensures Value() == Rewind(old(Value()))
    {
      hide LoadPage, PageName;
      Small();
      var es := LoadPage(if PageName(page - 1) in nvs then nvs[PageName(page - 1)] else "", logs[..]);
      ghost var p := page;
      for i := 0 to PER_PAGE
        invariant page == p && forall j :: 0 <= j < i ==> logs[j] == es[j]
      {
        logs[i] := es[i];
      }
      page := page - 1;
      assert logs[..] == es;
    }

    // beyond is what the memory past the array holds.
    method UnlogStep(beyond: LogEntry) returns (e: LogEntry)
      requires Valid()
      modifies this, logs
      ensures Value() == Unlog(old(Value())) && e == Handed(old(Value()), beyond)
    {
      hide Rewind;
      e := if count < PER_PAGE then logs[count] else beyond;
      if count > 0 {
        count := count - 1;
      } else if page >= 1 {
        RewindLog();
        count := PER_PAGE - 1;
      } else {
        dump := false;
      }
    }
  }
}
