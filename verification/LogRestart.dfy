/** A restart in the middle of the offline log (src/machines.c, logs_init): the saved pages come back as they were, and
    of the RAM page what the last flush had saved of it. */
module LogRestart {
  import opened Pattern
  import opened Flash
  import opened Machine
  import opened OfflineLog

  // The other files of the log: its page counter, the counter of its RAM page, and the RAM page as last flushed.
  datatype Files = Files(pages: string, entries: string, ram: string)
  datatype State = State(log: Log, files: Files)

  const BLANK_PAGE: seq<LogEntry> := [BLANK, BLANK, BLANK, BLANK, BLANK]

  function Counter(n: nat): string
    requires n < Pow10(DIGITS)
  {
    Decimal(n, DIGITS)
  }

  datatype Op = DoLog(entry: LogEntry) | DoUnlog | DoFlush | DoRestart

  predicate Legal(op: Op) {
    op.DoLog? ==> ValidFlags(op.entry.flags)
  }

  // Both counters are saved with every step of the log that changes them.
  function Follow(s: State, t: Log): State
    requires t.count <= PER_PAGE && t.page <= MAX_PAGES
  {
    Small();
    State(t, s.files.(pages := Counter(t.page), entries := Counter(t.count)))
  }

  // The RAM page as last flushed, decoded over a page of zeros.
  function Flushed(files: Files): (es: seq<LogEntry>)
    ensures |es| == PER_PAGE
  {
    LoadPage(files.ram, BLANK_PAGE)
  }

  // A restart knows only the files.
  function Restarted(s: State): Log {
    var n := Numeral(s.files.entries);
    Log(if n > 0 then Flushed(s.files) else BLANK_PAGE, n, Numeral(s.files.pages), n > 0, s.log.flash)
  }

  // The last call of a drain saves nothing. A flush saves the RAM page, and its counter before that is reset.
  ghost function Step(s: State, op: Op): State
    requires Consistent(s) && Legal(op)
  {
    Small();
    match op
    case DoLog(e) => Follow(s, Append(s.log, e))
    case DoUnlog =>
      UnlogDrainable(s.log);
      if s.log.count == 0 && s.log.page == 0 then s.(log := Unlog(s.log)) else Follow(s, Unlog(s.log))
    case DoFlush =>
      State(FlushRam(s.log), s.files.(ram := PageText(s.log.ram), entries := Counter(s.log.count)))
    case DoRestart => s.(log := Restarted(s))
  }

  // The page counter is the one on file; so is the other, unless a flush has reset it since.
  ghost predicate Consistent(s: State) {
    && Drainable(s.log) && s.files.pages == Counter(s.log.page)
    && (exists n: nat :: n <= PER_PAGE && Saved(s, n))
    && (s.files.ram == "" || exists es :: ValidPage(es) && s.files.ram == PageText(es))
  }

  predicate Saved(s: State, n: nat)
    requires n < Pow10(DIGITS)
  {
    s.files.entries == Counter(n) && (s.log.count == n || s.log.count == 0)
  }

  // ---------------------------------------------------------------- the files keep up

  lemma FlushedValid(files: Files)
    requires files.ram == "" || exists es :: ValidPage(es) && files.ram == PageText(es)
    ensures ValidPage(Flushed(files)) && (files.ram == "" ==> Flushed(files) == BLANK_PAGE)
  {
    hide PageText, PageBytes, PageOf;
    if files.ram == "" {
      PageRoundTrip(BLANK_PAGE);
    } else {
      var es :| ValidPage(es) && files.ram == PageText(es);
      SavedPage(es, BLANK_PAGE);
    }
  }

  lemma AppendDrainable(s: Log, e: LogEntry)
    requires Drainable(s) && ValidFlags(e.flags)
    ensures Drainable(Append(s, e))
  {
    hide PageText, PageName;
    Names();
    var t := Append(s, e);
    forall p: nat | p < t.page ensures HasPage(t.flash, p) {
      if p < s.page { assert HasPage(s.flash, p); }
    }
  }

  lemma RestartReads(s: State, n: nat)
    requires Consistent(s) && n <= PER_PAGE && Saved(s, n)
    ensures Numeral(s.files.pages) == s.log.page && Numeral(s.files.entries) == n
  {
    hide Numeral, Decimal;
    Small();
    NumeralOfDecimal(s.log.page, DIGITS);
    NumeralOfDecimal(n, DIGITS);
  }

  lemma StepConsistent(s: State, op: Op)
    requires Consistent(s) && Legal(op)
    ensures Consistent(Step(s, op))
  {
    hide PageText, LoadPage, Decimal, Numeral, HasPage, Append, Unlog;
    Small();
    var n: nat :| n <= PER_PAGE && Saved(s, n);
    match op {
      case DoLog(e) =>
        AppendDrainable(s.log, e);
        assert Saved(Step(s, op), Step(s, op).log.count);
      case DoUnlog =>
        UnlogDrainable(s.log);
        if s.log.count == 0 && s.log.page == 0 { LastUnlog(s.log); }
        assert Saved(Step(s, op), if s.log.count == 0 && s.log.page == 0 then n else Step(s, op).log.count);
      case DoFlush => assert Saved(Step(s, op), s.log.count);
      case DoRestart =>
        RestartReads(s, n);
        FlushedValid(s.files);
        assert Saved(Step(s, op), n);
    }
  }

  lemma LastUnlog(s: Log)
    requires Drainable(s) && s.count == 0 && s.page == 0
    ensures Unlog(s).count == 0 && Unlog(s).page == 0
  {
  }

  ghost predicate Runs(s: State, ops: seq<Op>)
    decreases |ops|
  {
    Consistent(s) && (ops == [] || (Legal(ops[0]) && Runs(Step(s, ops[0]), ops[1..])))
  }

  ghost function Run(s: State, ops: seq<Op>): State
    requires Runs(s, ops)
    decreases |ops|
  {
    if ops == [] then s else Run(Step(s, ops[0]), ops[1..])
  }

  /** Over every run of log steps, drain calls, flushes and restarts, the files keep up with the log. */
  lemma {:induction false} FilesKeepUp(s: State, ops: seq<Op>)
    requires Consistent(s) && forall i :: 0 <= i < |ops| ==> Legal(ops[i])
    ensures Runs(s, ops) && Consistent(Run(s, ops))
    decreases |ops|
  {
    hide Consistent, Step, Legal;
    if ops != [] {
      StepConsistent(s, ops[0]);
      FilesKeepUp(Step(s, ops[0]), ops[1..]);
    }
  }

  /** Saving the counters does not disturb a drain. */
  lemma {:induction false} RunDrains(s: State, ops: seq<Op>)
    requires Consistent(s) && forall i :: 0 <= i < |ops| ==> ops[i] == DoUnlog
    ensures Runs(s, ops) && Drainable(s.log) && Run(s, ops).log == DrainState(s.log, |ops|)
    decreases |ops|
  {
    hide Consistent, Step, Unlog, Drainable, Legal;
    UnlogStep(s);
    if ops != [] {
      StepConsistent(s, DoUnlog);
      RunDrains(Step(s, ops[0]), ops[1..]);
    }
  }

  lemma UnlogStep(s: State)
    requires Consistent(s)
    ensures Legal(DoUnlog) && Drainable(s.log) && Drainable(Unlog(s.log)) && Step(s, DoUnlog).log == Unlog(s.log)
  {
    hide Unlog;
    UnlogDrainable(s.log);
  }

  // ---------------------------------------------------------------- what a restart brings back

  lemma Restores(s: State, n: nat)
    requires Consistent(s) && n <= PER_PAGE && Saved(s, n)
    ensures var t := Step(s, DoRestart).log;
      && Sound(s.log) && Sound(t) && t.flash == s.log.flash && t.page == s.log.page && t.count == n
      && t.dump == (n > 0) && t.ram == if n > 0 then Flushed(s.files) else BLANK_PAGE
  {
    hide PageText, LoadPage, Decimal, Numeral;
    RestartReads(s, n);
    FlushedValid(s.files);
  }

  /** After any run, a restart brings back every saved page; what the log holds is unchanged by it if and only if the
      RAM page, as last flushed, begins with the entries that RAM held. It asks for a drain only if it brings back some
      of the RAM page, whatever the saved pages hold. */
  lemma RestartKeepsIff(s: State, ops: seq<Op>)
    requires Consistent(s) && (forall i :: 0 <= i < |ops| ==> Legal(ops[i]))
    ensures Runs(s, ops) && Consistent(Run(s, ops))
    ensures var u := Run(s, ops); var t := Step(u, DoRestart).log;
      && Sound(u.log) && Sound(t) && t.page == u.log.page && t.flash == u.log.flash
      && (Retained(t) == Retained(u.log)
          <==> t.count == u.log.count && Flushed(u.files)[..t.count] == u.log.ram[..t.count])
      && (t.dump <==> t.count > 0) && (t.count == 0 ==> t.ram == BLANK_PAGE)
  {
    FilesKeepUp(s, ops);
    var u := Run(s, ops);
    var n: nat :| n <= PER_PAGE && Saved(u, n);
    hide Consistent, Step, Run, Runs, PagesUpTo, Flushed;
    Restores(u, n);
    var t := Step(u, DoRestart).log;
    Small();
    assert |Retained(t)| == PER_PAGE * t.page + t.count && |Retained(u.log)| == PER_PAGE * t.page + u.log.count;
    if t.count == u.log.count {
      if n == 0 { assert t.ram[..0] == u.log.ram[..0] == Flushed(u.files)[..0] == []; }
      SameTail(PagesUpTo(t.flash, t.page), t.ram[..n], u.log.ram[..n]);
    }
  }

  lemma SameTail(a: seq<LogEntry>, b: seq<LogEntry>, c: seq<LogEntry>)
    ensures a + b == a + c <==> b == c
  {
    if a + b == a + c { assert b == (a + b)[|a|..] && c == (a + c)[|a|..]; }
  }

  /** A flush and then a restart bring back everything, also what the flush took out of the drain's way. */
  lemma RestartAfterFlush(s: State)
    requires Consistent(s)
    ensures Sound(s.log) && Consistent(Step(s, DoFlush))
    ensures var t := Step(Step(s, DoFlush), DoRestart).log;
      Sound(t) && t.page == s.log.page && t.count == s.log.count && Retained(t) == Retained(s.log)
      && (t.dump <==> s.log.count > 0)
  {
    hide PageText, LoadPage, Decimal, Numeral, PagesUpTo;
    StepConsistent(s, DoFlush);
    var u := Step(s, DoFlush);
    Small();
    assert Saved(u, s.log.count);
    Restores(u, s.log.count);
    if s.log.count > 0 { SavedPage(s.log.ram, BLANK_PAGE); }
  }

  /** Without a flush, a restart puts as many blank entries in place of those in RAM. */
  lemma {:induction false} RestartWithoutFlush(s: State, ops: seq<Op>)
    requires Consistent(s) && s.files.ram == "" && DoFlush !in ops && forall i :: 0 <= i < |ops| ==> Legal(ops[i])
    ensures Runs(s, ops) && Consistent(Run(s, ops)) && Run(s, ops).files.ram == ""
    ensures Flushed(Run(s, ops).files) == BLANK_PAGE
    decreases |ops|
  {
    if ops == [] {
      FlushedValid(s.files);
    } else {
      StepConsistent(s, ops[0]);
      KeepsRam(s, ops[0]);
      hide Consistent, Step, Flushed;
      RestartWithoutFlush(Step(s, ops[0]), ops[1..]);
    }
  }

  lemma KeepsRam(s: State, op: Op)
    requires Consistent(s) && Legal(op)
    ensures op == DoFlush || Step(s, op).files.ram == s.files.ram
  {
    hide Append, Unlog, Decimal;
  }
}
