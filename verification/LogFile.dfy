/** The byte counters of a log file under the size policy: rolling, flushing, and dropping cached pages. */
module LogFile {
  const MIB: nat := 0x10_0000
  const UINT32: nat := 0x1_0000_0000
  const SIZE_T: nat := 0x1_0000_0000_0000_0000
  const ROLLOVER_ATTEMPT_FREQUENCY: nat := 0x20

  function MaxLogSize(flag: nat): (m: nat)
    ensures 1 <= m < 4096
  {
    if 0 < flag < 4096 then flag else 1
  }

  /** What the system was told it may drop: so many bytes from a position of the counter on. */
  datatype Range = Range(start: nat, length: nat)

  /** What a call finds outside the object: clocks, the process, and how file operations end. */
  datatype Event =
    | Write(force: bool, due: bool, pidChanged: bool, muted: bool, reopens: bool, creates: bool,
            header: nat, message: nat, stopped: bool, diskFull: bool)
    | Flush
    | Rename

  datatype State = State(open: bool, initialized: bool, attempt: nat, length: nat, sinceFlush: nat, dropped: nat,
                         advised: seq<Range>)

  const START := State(false, false, ROLLOVER_ATTEMPT_FREQUENCY - 1, 0, 0, 0, [])

  // ---------------------------------------------------------------- what each operation does to the counters

  function Rolled(s: State, max: nat, pidChanged: bool): State {
    if s.length / MIB >= max || pidChanged
    then State(false, s.initialized, ROLLOVER_ATTEMPT_FREQUENCY - 1, 0, 0, 0, [])
    else s
  }

  function Reopened(s: State, reopens: bool): State {
    if !s.open && !s.initialized && reopens then s.(open := true, initialized := true) else s
  }

  /** Makes sure of a file to write to; there is none until enough messages have come by. */
  function Opened(s: State, e: Event): State
    requires e.Write?
  {
    if s.open then s
    else if s.attempt + 1 != ROLLOVER_ATTEMPT_FREQUENCY then s.(attempt := s.attempt + 1)
    else if !e.creates then s.(attempt := 0, initialized := true)
    else s.(attempt := 0, initialized := true, open := true, length := s.length + e.header, sinceFlush := s.sinceFlush + e.header)
  }

  function Added(s: State, n: nat): State { s.(length := s.length + n, sinceFlush := s.sinceFlush + n) }

  /** All whole units but the last may be dropped, once that makes two more of them. */
  function Dropped(s: State): State {
    var total := s.length / MIB * MIB - MIB;
    if s.length < 3 * MIB || total - s.dropped < 2 * MIB then s
    else s.(dropped := total, advised := s.advised + [Range(s.dropped, total - s.dropped)])
  }

  predicate Flushes(s: State, e: Event)
    requires e.Write?
  {
    e.force || s.sinceFlush >= 1000000 || e.due
  }

  function Logged(s: State, e: Event): State
    requires e.Write?
  {
    if e.stopped || e.diskFull then s
    else
      var t := Added(s, e.message);
      if Flushes(t, e) then Dropped(t.(sinceFlush := 0)) else t
  }

  function Next(s: State, max: nat, e: Event): State {
    match e
    case Flush => if s.open then s.(sinceFlush := 0) else s
    case Rename => if s.open then s.(open := false, attempt := ROLLOVER_ATTEMPT_FREQUENCY - 1) else s
    case Write(_, _, _, _, _, _, _, _, _, _) =>
      if e.muted then s
      else
        var t := Opened(Reopened(Rolled(s, max, e.pidChanged), e.reopens), e);
        if t.open then Logged(t, e) else t
  }

  function Run(max: nat, events: seq<Event>): State {
    if events == [] then START else Next(Run(max, events[..|events| - 1]), max, events[|events| - 1])
  }

  // ---------------------------------------------------------------- what every run keeps

  /** The ranges follow one another from zero up to "end", each of two units or more. */
  predicate Contiguous(ranges: seq<Range>, end: nat) {
    if ranges == [] then end == 0
    else
      var last := ranges[|ranges| - 1];
      last.length >= 2 * MIB && last.start + last.length == end && Contiguous(ranges[..|ranges| - 1], last.start)
  }

  predicate Inv(s: State, max: nat) {
    && s.attempt < ROLLOVER_ATTEMPT_FREQUENCY
    && s.sinceFlush <= s.length < (max + 1) * MIB
    && s.dropped % MIB == 0
    && (s.dropped == 0 || s.dropped + MIB <= s.length)
    && Contiguous(s.advised, s.dropped)
  }

  /** The header and the message together stay below one unit. */
  predicate Small(e: Event) { e.Write? ==> e.header + e.message < MIB }

  lemma DroppedKeeps(s: State, max: nat)
    requires Inv(s, max)
    ensures Inv(Dropped(s), max)
    ensures Dropped(s).length - Dropped(s).dropped < 3 * MIB
  {
    var units, done := s.length / MIB, s.dropped / MIB;
    assert s.dropped == done * MIB;
    var t := Dropped(s);
    if t != s {
      assert t.advised[..|t.advised| - 1] == s.advised;
      assert t.dropped == (units - 1) * MIB;
    }
  }

  /** The parts of a write before the message: what is counted leaves room for the message. */
  lemma OpenedKeeps(s: State, max: nat, e: Event)
    requires Inv(s, max) && Small(e) && e.Write? && max >= 1
    ensures var t := Opened(Reopened(Rolled(s, max, e.pidChanged), e.reopens), e);
            Inv(t, max) && t.length + e.message < (max + 1) * MIB
  {
    assert s.length / MIB < max ==> s.length < max * MIB;
  }

  lemma LoggedKeeps(s: State, max: nat, e: Event)
    requires Inv(s, max) && e.Write? && s.length + e.message < (max + 1) * MIB
    ensures Inv(Logged(s, e), max)
    ensures !e.stopped && !e.diskFull && Flushes(Added(s, e.message), e) ==> Logged(s, e).length - Logged(s, e).dropped < 3 * MIB
  {
    hide Dropped, Contiguous;
    DroppedKeeps(Added(s, e.message).(sinceFlush := 0), max);
  }

  lemma StepKeeps(s: State, max: nat, e: Event)
    requires Inv(s, max) && Small(e) && max >= 1
    ensures Inv(Next(s, max, e), max)
  {
    hide Contiguous, Opened, Rolled, Reopened, Logged;
    if e.Write? && !e.muted {
      OpenedKeeps(s, max, e);
      LoggedKeeps(Opened(Reopened(Rolled(s, max, e.pidChanged), e.reopens), e), max, e);
    }
  }

  /**
   * In every run whose messages are small: the advised ranges tile the dropped part, a whole unit
   * always stays, and nothing reaches 32 bits.
   */
  lemma {:induction false} RunKeeps(flag: nat, events: seq<Event>)
    requires forall i :: 0 <= i < |events| ==> Small(events[i])
    ensures Inv(Run(MaxLogSize(flag), events), MaxLogSize(flag))
    ensures Run(MaxLogSize(flag), events).length < UINT32
  {
    if events != [] {
      RunKeeps(flag, events[..|events| - 1]);
      StepKeeps(Run(MaxLogSize(flag), events[..|events| - 1]), MaxLogSize(flag), events[|events| - 1]);
    }
  }

  /** At the end of every run whose last event is a write that flushes, less than three units are undropped. */
  lemma FlushedRun(flag: nat, events: seq<Event>, e: Event)
    requires forall i :: 0 <= i < |events| ==> Small(events[i])
    requires e.Write? && Small(e) && !e.muted && !e.stopped && !e.diskFull
    requires var max := MaxLogSize(flag);
             var t := Opened(Reopened(Rolled(Run(max, events), max, e.pidChanged), e.reopens), e);
             t.open && Flushes(Added(t, e.message), e)
    ensures var s := Run(MaxLogSize(flag), events + [e]); s.length - s.dropped < 3 * MIB
  {
    hide Inv, Opened, Rolled, Reopened, Logged, Flushes, Added;
    var max := MaxLogSize(flag);
    RunKeeps(flag, events);
    OpenedKeeps(Run(max, events), max, e);
    LoggedKeeps(Opened(Reopened(Rolled(Run(max, events), max, e.pidChanged), e.reopens), e), max, e);
    assert (events + [e])[..|events|] == events;
  }

  // ---------------------------------------------------------------- what a write does to the length

  /** The limit on the size of a file, in bytes, for the flag. */
  function LimitOf(flag: nat): nat { (if 1 <= flag <= 4095 then flag else 1) * 0x10_0000 }

  /** What became of a write: whether the file was given up before it, and one opened, made, and written to for it. */
  datatype Outcome = Outcome(rolled: bool, reopened: bool, attempted: bool, made: bool, written: bool)

  function OutcomeOf(s: State, limit: nat, e: Event): Outcome
    requires e.Write?
  {
    var rolled := s.length >= limit || e.pidChanged;
    var closed := rolled || !s.open;
    var reopened := closed && !s.initialized && e.reopens;
    var attempted := closed && !reopened && (rolled || s.attempt == 31);
    var made := attempted && e.creates;
    Outcome(rolled, reopened, attempted, made, (!closed || reopened || made) && !e.stopped && !e.diskFull)
  }

  /**
   * Over every run: a file is given up exactly when its length has reached the limit or the process is another; with
   * none open an old one is taken up once, or at the right turn a new one is made, and its header counted; and the
   * message is counted exactly when there is a file and writing goes on.
   */
  lemma WriteCounts(flag: nat, events: seq<Event>, e: Event)
    requires e.Write? && !e.muted
    ensures var s, r := Run(MaxLogSize(flag), events), Run(MaxLogSize(flag), events + [e]);
            var o := OutcomeOf(s, LimitOf(flag), e);
            && r.open == ((s.open && !o.rolled) || o.reopened || o.made)
            && r.length == (if o.rolled then 0 else s.length) + (if o.made then e.header else 0)
                           + (if o.written then e.message else 0)
            && r.initialized == (s.initialized || o.reopened || o.attempted)
            && r.attempt == (if o.attempted then 0
                             else if r.open then (if o.rolled then 31 else s.attempt)
                             else s.attempt + 1)
  {
    hide Dropped;
    var max := MaxLogSize(flag);
    assert (events + [e])[..|events|] == events;
    var t := Opened(Reopened(Rolled(Run(max, events), max, e.pidChanged), e.reopens), e);
    DroppedOnlyDrops(Added(t, e.message).(sinceFlush := 0));
  }

  /** A write that is muted, and one that finds no file, change nothing else; nor do flushes and renames. */
  lemma OthersCount(flag: nat, events: seq<Event>, e: Event)
    requires e.Write? ==> e.muted
    ensures var s, r := Run(MaxLogSize(flag), events), Run(MaxLogSize(flag), events + [e]);
            && r.length == s.length && r.dropped == s.dropped && r.initialized == s.initialized
            && r.open == (s.open && e != Rename)
            && r.sinceFlush == (if e == Flush && s.open then 0 else s.sinceFlush)
            && r.attempt == (if e == Rename && s.open then 31 else s.attempt)
  {
    assert (events + [e])[..|events|] == events;
  }

  /** The first write of all, and every one that finds its file full or the process changed, opens a file. */
  lemma FirstWriteOpens(flag: nat, events: seq<Event>, e: Event)
    requires e.Write? && !e.muted && e.creates && !e.stopped && !e.diskFull
    requires (forall i :: 0 <= i < |events| ==> events[i].Write? ==> events[i].muted) ||
             Run(MaxLogSize(flag), events).length >= LimitOf(flag) || e.pidChanged
    ensures var s, r := Run(MaxLogSize(flag), events), Run(MaxLogSize(flag), events + [e]);
            r.open && r.length == (if e.reopens && !s.initialized then 0 else e.header) + e.message
  {
    WriteCounts(flag, events, e);
    if forall i :: 0 <= i < |events| ==> events[i].Write? ==> events[i].muted { NothingYet(flag, events); }
  }

  lemma {:induction false} NothingYet(flag: nat, events: seq<Event>)
    requires forall i :: 0 <= i < |events| ==> events[i].Write? ==> events[i].muted
    ensures Run(MaxLogSize(flag), events) == START
  {
    if events != [] { NothingYet(flag, events[..|events| - 1]); }
  }

  /** Without a file, writes of the same process are counted and lost until it is time for another attempt. */
  lemma {:induction false} AttemptsAreCounted(flag: nat, events: seq<Event>, more: seq<Event>)
    requires var s := Run(MaxLogSize(flag), events);
             !s.open && s.initialized && s.length < LimitOf(flag) && s.attempt + |more| <= 31
    requires forall i :: 0 <= i < |more| ==> more[i].Write? && !more[i].muted && !more[i].pidChanged
    ensures var s, r := Run(MaxLogSize(flag), events), Run(MaxLogSize(flag), events + more);
            r == s.(attempt := s.attempt + |more|)
  {
    if more == [] {
      assert events + more == events;
    } else {
      var front, e := more[..|more| - 1], more[|more| - 1];
      AttemptsAreCounted(flag, events, front);
      assert events + more == (events + front) + [e] && (events + more)[..|events + front|] == events + front;
    }
  }

  /** So after a creation that failed exactly 31 such messages are lost; the next one makes a file if it can be made. */
  lemma NextAttempt(flag: nat, events: seq<Event>, lost: seq<Event>, e: Event)
    requires var s := Run(MaxLogSize(flag), events); !s.open && s.initialized && s.length < LimitOf(flag) && s.attempt == 0
    requires |lost| == 31 && forall i :: 0 <= i < |lost| ==> lost[i].Write? && !lost[i].muted && !lost[i].pidChanged
    requires e.Write? && !e.muted && !e.stopped && !e.diskFull && !e.pidChanged && e.creates
    ensures forall k :: 0 <= k <= 31 ==> !Run(MaxLogSize(flag), events + lost[..k]).open
    ensures var s, r := Run(MaxLogSize(flag), events), Run(MaxLogSize(flag), events + lost + [e]);
            r.open && r.length == s.length + e.header + e.message
  {
    forall k | 0 <= k <= 31 ensures !Run(MaxLogSize(flag), events + lost[..k]).open {
      AttemptsAreCounted(flag, events, lost[..k]);
    }
    AttemptsAreCounted(flag, events, lost);
    WriteCounts(flag, events + lost, e);
  }

  /** What is not flushed yet is counted: a flush comes when it is asked for, due, or a million bytes are waiting. */
  lemma FlushCounts(flag: nat, events: seq<Event>, e: Event)
    requires e.Write? && !e.muted
    ensures var s, r := Run(MaxLogSize(flag), events), Run(MaxLogSize(flag), events + [e]);
            var o := OutcomeOf(s, LimitOf(flag), e);
            var waiting := (if o.rolled then 0 else s.sinceFlush) + (if o.made then e.header else 0)
                           + (if o.written then e.message else 0);
            r.sinceFlush == if o.written && (e.force || e.due || waiting > 999999) then 0 else waiting
  {
    hide Dropped;
    var max := MaxLogSize(flag);
    assert (events + [e])[..|events|] == events;
    var t := Opened(Reopened(Rolled(Run(max, events), max, e.pidChanged), e.reopens), e);
    DroppedOnlyDrops(Added(t, e.message).(sinceFlush := 0));
  }

  lemma DroppedOnlyDrops(s: State)
    ensures Dropped(s) == s.(dropped := Dropped(s).dropped, advised := Dropped(s).advised)
  {
  }

  /** Dropping keeps up with what one operation adds. */
  lemma RecentKeeps(s: State, max: nat, e: Event)
    requires Inv(s, max) && Small(e) && max >= 1 && e != Flush
    requires s.length - s.dropped < 3 * MIB + s.sinceFlush
    ensures var t := Next(s, max, e); t.length - t.dropped < 3 * MIB + t.sinceFlush
  {
    hide Inv, Dropped;
    if e.Write? && !e.muted {
      var t := Opened(Reopened(Rolled(s, max, e.pidChanged), e.reopens), e);
      OpenedKeeps(s, max, e);
      LoggedKeeps(t, max, e);
    }
  }

  /** Without a flush from outside, all but three units of what was flushed has been dropped. */
  lemma {:induction false} UndroppedIsRecent(flag: nat, events: seq<Event>)
    requires forall i :: 0 <= i < |events| ==> Small(events[i]) && events[i] != Flush
    ensures var s := Run(MaxLogSize(flag), events); s.length - s.dropped < 3 * MIB + s.sinceFlush
  {
    hide Next;
    if events != [] {
      UndroppedIsRecent(flag, events[..|events| - 1]);
      RunKeeps(flag, events[..|events| - 1]);
      RecentKeeps(Run(MaxLogSize(flag), events[..|events| - 1]), MaxLogSize(flag), events[|events| - 1]);
    }
  }

  /** Such ranges lie side by side: every position below the end is in exactly one of them, and no other is. */
  lemma {:induction false} CoveredOnce(ranges: seq<Range>, end: nat, p: nat)
    requires Contiguous(ranges, end)
    ensures forall k :: 0 <= k < |ranges| ==> ranges[k].start + ranges[k].length <= end
    ensures p < end ==>
              exists k :: 0 <= k < |ranges| && ranges[k].start <= p < ranges[k].start + ranges[k].length
                && forall j :: 0 <= j < |ranges| && ranges[j].start <= p < ranges[j].start + ranges[j].length ==> j == k
  {
    if ranges != [] {
      var n := |ranges| - 1;
      var last, front := ranges[n], ranges[..n];
      CoveredOnce(front, last.start, p);
      assert forall k :: 0 <= k < n ==> ranges[k] == front[k];
      if last.start <= p < end {
        assert ranges[n].start <= p < ranges[n].start + ranges[n].length;
      }
    }
  }

  // ---------------------------------------------------------------- the object, with its machine integers

  /** Unsigned addition and subtraction of machine words. */
  function Add(size: nat, a: nat, b: nat): (r: nat)
    requires size > 0
    ensures a + b < size ==> r == a + b
  {
    (a + b) % size
  }

  function Subtract(size: nat, a: nat, b: nat): (r: nat)
    requires size > 0
    ensures b <= a < size + b ==> r == a - b
  {
    (a - b) % size
  }

  /** The 32-bit mask clears the upper half of the length too; a unit is kept, and the result is cut to 32 bits. */
  function TotalDrop(length: nat): nat {
    var low := length % UINT32;
    Subtract(SIZE_T, low - low % MIB, MIB) % UINT32
  }

  /** The subtraction that could wrap does not: what is dropped already is no more than what may be. */
  lemma DropDoesNotWrap(s: State)
    requires Inv(s, 4095) && s.length >= 3 * MIB
    ensures s.dropped <= s.length / MIB * MIB - MIB
    ensures TotalDrop(s.length) == s.length / MIB * MIB - MIB
  {
    var units, done := s.length / MIB, s.dropped / MIB;
    assert s.dropped == done * MIB;
  }

  class LogFileObject {
    const max: nat
    var open: bool
    var initialized: bool
    var rolloverAttempt: nat
    var fileLength: nat
    var bytesSinceFlush: nat
    var droppedMemLength: nat
    ghost var advised: seq<Range>

    ghost function Value(): State
      reads this
    {
      State(open, initialized, rolloverAttempt, fileLength, bytesSinceFlush, droppedMemLength, advised)
    }

    ghost predicate Valid()
      reads this
    {
      1 <= max < 4096 && Inv(Value(), max)
    }

    constructor (flag: nat)
      ensures Valid() && max == MaxLogSize(flag) && Value() == START
    {
      max := MaxLogSize(flag);
      open, initialized, rolloverAttempt := false, false, ROLLOVER_ATTEMPT_FREQUENCY - 1;
      fileLength, bytesSinceFlush, droppedMemLength, advised := 0, 0, 0, [];
    }

    /** Closing the file under its old name leaves the counters as they are. */
    method Rename()
      requires Valid()
      modifies this
      ensures Valid() && Value() == Next(old(Value()), max, Event.Rename)
    {
      if open {
        open := false;
        rolloverAttempt := ROLLOVER_ATTEMPT_FREQUENCY - 1;
      }
    }

    method FlushUnlocked()
      requires Valid()
      modifies `bytesSinceFlush
      ensures Valid() && Value() == Next(old(Value()), max, Flush)
    {
      if open { bytesSinceFlush := 0; }
    }

    method CheckNeedRollLogFiles(pidChanged: bool) returns (rollNeeded: bool)
      ensures rollNeeded <==> fileLength >= max * MIB || pidChanged
    {
      rollNeeded := fileLength / MIB >= max || pidChanged;
    }

    method Roll(pidChanged: bool)
      requires Valid()
      modifies this
      ensures Valid() && Value() == Rolled(old(Value()), max, pidChanged) && fileLength < max * MIB
    {
      var roll := CheckNeedRollLogFiles(pidChanged);
      if roll {
        open := false;
        fileLength, bytesSinceFlush, droppedMemLength, advised := 0, 0, 0, [];
        rolloverAttempt := ROLLOVER_ATTEMPT_FREQUENCY - 1;
      }
    }

    /** A file to write to, or none yet. */
    method Open(e: Event)
      requires e.Write? && Valid() && Small(e) && fileLength < max * MIB
      modifies this
      ensures Valid() && Value() == Opened(old(Value()), e) && fileLength + e.message < (max + 1) * MIB
    {
      hide Add, Contiguous;
      if !open {
        rolloverAttempt := Add(UINT32, rolloverAttempt, 1);
        if rolloverAttempt != ROLLOVER_ATTEMPT_FREQUENCY { return; }
        rolloverAttempt, initialized := 0, true;
        if !e.creates { return; }
        open := true;
        fileLength := Add(SIZE_T, fileLength, e.header);
        bytesSinceFlush := Add(UINT32, bytesSinceFlush, e.header);
      }
    }

    method Reopen(reopens: bool)
      requires Valid()
      modifies `open, `initialized
      ensures Valid() && Value() == Reopened(old(Value()), reopens)
    {
      if !open && !initialized && reopens {
        open, initialized := true, true;
      }
    }

    /** In 32 bits: the length is cut to a whole number of units, one of them is kept. */
    method DropMemory()
      requires Valid()
      modifies `droppedMemLength, `advised
      ensures Valid() && Value() == Dropped(old(Value())) && fileLength - droppedMemLength < 3 * MIB
    {
      hide TotalDrop, Subtract, Contiguous;
      DroppedKeeps(Value(), max);
      if fileLength >= 3 * MIB {
        DropDoesNotWrap(Value());
        var total := TotalDrop(fileLength);
        var drop := Subtract(UINT32, total, droppedMemLength);
        if drop >= 2 * MIB {
          advised := advised + [Range(droppedMemLength, drop)];
          droppedMemLength := total;
        }
      }
    }

    /** The message goes into the open file. */
    method Log(e: Event)
      requires e.Write? && Valid() && fileLength + e.message < (max + 1) * MIB && open
      modifies this
      ensures Valid() && Value() == Logged(old(Value()), e)
    {
      hide Dropped, Contiguous, Add;
      if e.stopped { return; }
      if e.diskFull { return; }
      fileLength := Add(SIZE_T, fileLength, e.message);
      bytesSinceFlush := Add(UINT32, bytesSinceFlush, e.message);
      if e.force || bytesSinceFlush >= 1000000 || e.due {
        FlushUnlocked();
        DropMemory();
      }
    }

    method Write(e: Event)
      requires e.Write? && Valid() && Small(e)
      modifies this
      ensures Valid() && Value() == Next(old(Value()), max, e)
    {
      hide Rolled, Opened, Reopened, Logged, Inv;
      if e.muted { return; }
      Roll(e.pidChanged);
      Reopen(e.reopens);
      Open(e);
      if open { Log(e); }
    }
  }
}
