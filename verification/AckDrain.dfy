/** The drain loop of `send_action`: read server messages until the second input-unblock, which ends the action. */
module AckDrain {
  import opened Common

  const DRAIN_LIMIT: nat := 500

  datatype Message = UnblockInputThread | Log(lines: seq<string>) | LogError(lines: seq<string>) | Exit | Other

  /** What one turn of the loop meets: the deadline has passed, the stream has ended, or a message. */
  datatype Turn = Late | Ended | Got(message: Message)

  datatype ActionAck = ActionAck(ok: bool, error: Option<string>, info: Option<string>)

  datatype DrainError = TimedOut(after: nat) | Closed | SessionExited | Exceeded

  // ─── Vocabulary of the specification ─────────────────────────────────────────

  predicate IsUnblock(t: Turn) {
    t == Got(UnblockInputThread)
  }

  predicate Stops(t: Turn) {
    t.Late? || t.Ended? || t.message.Exit?
  }

  function Unblocks(turns: seq<Turn>): nat {
    if turns == [] then 0 else Unblocks(turns[..|turns| - 1]) + if IsUnblock(turns[|turns| - 1]) then 1 else 0
  }

  function InfoOf(t: Turn): seq<string> {
    if t.Got? && t.message.Log? then t.message.lines else []
  }

  function ErrorsOf(t: Turn): seq<string> {
    if t.Got? && t.message.LogError? then t.message.lines else []
  }

  /** All `Log` lines, in arrival order. */
  function InfoLines(turns: seq<Turn>): seq<string> {
    if turns == [] then [] else InfoLines(turns[..|turns| - 1]) + InfoOf(turns[|turns| - 1])
  }

  /** All `LogError` lines, in arrival order. */
  function ErrorLines(turns: seq<Turn>): seq<string> {
    if turns == [] then [] else ErrorLines(turns[..|turns| - 1]) + ErrorsOf(turns[|turns| - 1])
  }

  function JoinLines(lines: seq<string>): string {
    if lines == [] then "" else if |lines| == 1 then lines[0] else lines[0] + "\n" + JoinLines(lines[1..])
  }

  function Joined(lines: seq<string>): Option<string> {
    if lines == [] then None else Some(JoinLines(lines))
  }

  /** Nothing before turn `k` stops the drain, and turn `k` brings the second terminator. */
  predicate AckAt(turns: seq<Turn>, k: nat) {
    && k < |turns| && k < DRAIN_LIMIT
    && IsUnblock(turns[k]) && Unblocks(turns[..k]) == 1
    && forall j | 0 <= j < k :: !Stops(turns[j])
  }

  /** Turn `k` stops the drain before a second terminator. */
  predicate StopsAt(turns: seq<Turn>, k: nat) {
    && k < |turns| && k < DRAIN_LIMIT
    && Stops(turns[k]) && Unblocks(turns[..k]) < 2
    && forall j | 0 <= j < k :: !Stops(turns[j])
  }

  function ErrorAt(turns: seq<Turn>, k: nat): DrainError
    requires k < |turns| && Stops(turns[k])
  {
    if turns[k].Late? then TimedOut(k) else if turns[k].Ended? then Closed else SessionExited
  }

  // ─── The loop ────────────────────────────────────────────────────────────────

  function AckBefore(turns: seq<Turn>): ActionAck {
    ActionAck(ErrorLines(turns) == [], Joined(ErrorLines(turns)), Joined(InfoLines(turns)))
  }

  /**
   What the drain has to return. At the second terminator: all lines before it, `ok` exactly without error lines. At an
   earlier stop: its error. With nothing decided: exceeded after 500 turns, closed where the stream is shorter.
   */
  ghost predicate Outcome(turns: seq<Turn>, r: Result<ActionAck, DrainError>) {
    && (forall k: nat | AckAt(turns, k) :: r == Success(AckBefore(turns[..k])))
    && (forall k: nat | StopsAt(turns, k) :: r == Failure(ErrorAt(turns, k)))
    && (Undecided(turns) ==> r == Failure(if DRAIN_LIMIT <= |turns| then Exceeded else Closed))
    && (r.Success? ==> exists k: nat :: AckAt(turns, k))
    && (r == Failure(Exceeded) ==> DRAIN_LIMIT <= |turns| && Unblocks(turns[..DRAIN_LIMIT]) < 2)
  }

  ghost predicate Undecided(turns: seq<Turn>) {
    forall k: nat :: !AckAt(turns, k) && !StopsAt(turns, k)
  }

  /** What the loop has after `i` turns that decided nothing. */
  predicate Collected(turns: seq<Turn>, i: nat, skipped: bool, info: seq<string>, errors: seq<string>) {
    && i <= |turns|
    && (forall j | 0 <= j < i :: !Stops(turns[j]))
    && Unblocks(turns[..i]) == (if skipped then 1 else 0)
    && info == InfoLines(turns[..i]) && errors == ErrorLines(turns[..i])
  }

  lemma CollectsOneMore(turns: seq<Turn>, i: nat, skipped: bool, info: seq<string>, errors: seq<string>)
    requires Collected(turns, i, skipped, info, errors) && i < |turns| && !Stops(turns[i])
    requires !(skipped && IsUnblock(turns[i]))
    ensures Collected(turns, i + 1, skipped || IsUnblock(turns[i]),
                      if turns[i].message.Log? then info + turns[i].message.lines else info,
                      if turns[i].message.LogError? then errors + turns[i].message.lines else errors)
  {
    OneMore(turns, i);
    assert info + [] == info && errors + [] == errors;
  }

  lemma AckOutcome(turns: seq<Turn>, i: nat, info: seq<string>, errors: seq<string>)
    requires Collected(turns, i, true, info, errors) && i < |turns| && i < DRAIN_LIMIT && IsUnblock(turns[i])
    ensures Outcome(turns, Success(ActionAck(errors == [], Joined(errors), Joined(info))))
  {
    assert AckAt(turns, i);
    OnlyHere(turns, i);
  }

  lemma StopOutcome(turns: seq<Turn>, i: nat, skipped: bool, info: seq<string>, errors: seq<string>)
    requires Collected(turns, i, skipped, info, errors) && i < |turns| && i < DRAIN_LIMIT && Stops(turns[i])
    ensures Outcome(turns, Failure(ErrorAt(turns, i)))
  {
    assert StopsAt(turns, i);
    OnlyHere(turns, i);
  }

  lemma UndecidedOutcome(turns: seq<Turn>, i: nat, skipped: bool, info: seq<string>, errors: seq<string>)
    requires Collected(turns, i, skipped, info, errors)
    requires i == DRAIN_LIMIT || (i == |turns| && i < DRAIN_LIMIT)
    ensures Outcome(turns, Failure(if i == DRAIN_LIMIT then Exceeded else Closed))
  {
    NotYetDecided(turns, i);
  }

  /** The drain of `send_action`; a list of turns too short to decide stands for a stream that ends after it. */
  method Drain(turns: seq<Turn>) returns (r: Result<ActionAck, DrainError>)
    ensures Outcome(turns, r)
  {
    var skippedAttachUnblock := false;
    var infoLines, errorLines: seq<string> := [], [];
    for i := 0 to DRAIN_LIMIT
      invariant Collected(turns, i, skippedAttachUnblock, infoLines, errorLines)
    {
      if i == |turns| {
        UndecidedOutcome(turns, i, skippedAttachUnblock, infoLines, errorLines);
        return Failure(Closed);
      }
      var turn := turns[i];
      if turn.Late? {
        StopOutcome(turns, i, skippedAttachUnblock, infoLines, errorLines);
        return Failure(TimedOut(i));
      }
      if turn.Ended? {
        StopOutcome(turns, i, skippedAttachUnblock, infoLines, errorLines);
        return Failure(Closed);
      }
      if turn.message.Exit? {
        StopOutcome(turns, i, skippedAttachUnblock, infoLines, errorLines);
        return Failure(SessionExited);
      }
      if skippedAttachUnblock && turn.message.UnblockInputThread? {
        AckOutcome(turns, i, infoLines, errorLines);
        var error := Joined(errorLines);
        return Success(ActionAck(error.None?, error, Joined(infoLines)));
      }
      CollectsOneMore(turns, i, skippedAttachUnblock, infoLines, errorLines);
      match turn.message {
        case UnblockInputThread => skippedAttachUnblock := true;
        case Log(lines) => infoLines := infoLines + lines;
        case LogError(lines) => errorLines := errorLines + lines;
        case _ =>
      }
    }
    UndecidedOutcome(turns, DRAIN_LIMIT, skippedAttachUnblock, infoLines, errorLines);
    return Failure(Exceeded);
  }

  /** After `i` turns without a decision, a decision comes at turn `i` or later. */
  lemma NotYetDecided(turns: seq<Turn>, i: nat)
    requires i <= |turns| && Unblocks(turns[..i]) < 2 && forall j | 0 <= j < i :: !Stops(turns[j])
    ensures forall k: nat | AckAt(turns, k) || StopsAt(turns, k) :: i <= k
  {
    forall k: nat | AckAt(turns, k) || StopsAt(turns, k) ensures i <= k {
      if k < i {
        OneMore(turns, k);
        UnblocksGrow(turns, k + 1, i);
      }
    }
  }

  lemma OnlyHere(turns: seq<Turn>, i: nat)
    requires AckAt(turns, i) || StopsAt(turns, i)
    ensures forall k: nat | AckAt(turns, k) || StopsAt(turns, k) :: k == i
  {
    forall k: nat | AckAt(turns, k) || StopsAt(turns, k) ensures k == i {
      DecidedOnce(turns, i, k);
    }
  }

  lemma OneMore(turns: seq<Turn>, i: nat)
    requires i < |turns|
    ensures Unblocks(turns[..i + 1]) == Unblocks(turns[..i]) + if IsUnblock(turns[i]) then 1 else 0
    ensures InfoLines(turns[..i + 1]) == InfoLines(turns[..i]) + InfoOf(turns[i])
    ensures ErrorLines(turns[..i + 1]) == ErrorLines(turns[..i]) + ErrorsOf(turns[i])
  {
    assert turns[..i + 1][..i] == turns[..i];
  }

  // ─── Properties ──────────────────────────────────────────────────────────────

  function Window(turns: seq<Turn>): seq<Turn> {
    if |turns| <= DRAIN_LIMIT then turns else turns[..DRAIN_LIMIT]
  }

  lemma {:induction false} UnblocksGrow(turns: seq<Turn>, i: nat, j: nat)
    requires i <= j <= |turns|
    ensures Unblocks(turns[..i]) <= Unblocks(turns[..j])
    decreases j
  {
    if i < j {
      OneMore(turns, j - 1);
      UnblocksGrow(turns, i, j - 1);
    }
  }

  /** A drain is acknowledged, stopped or neither, and at one turn only. */
  lemma DecidedOnce(turns: seq<Turn>, j: nat, k: nat)
    requires (AckAt(turns, j) || StopsAt(turns, j)) && (AckAt(turns, k) || StopsAt(turns, k))
    ensures j == k
  {
    NotEarlier(turns, j, k);
    NotEarlier(turns, k, j);
  }

  lemma NotEarlier(turns: seq<Turn>, j: nat, k: nat)
    requires (AckAt(turns, j) || StopsAt(turns, j)) && (AckAt(turns, k) || StopsAt(turns, k))
    ensures k <= j
  {
    if j < k {
      OneMore(turns, j);
      UnblocksGrow(turns, j + 1, k);
    }
  }

  /** The turn of the `n`th terminator. */
  lemma {:induction false} ReachesCount(turns: seq<Turn>, n: nat) returns (k: nat)
    requires 0 < n <= Unblocks(turns)
    ensures k < |turns| && IsUnblock(turns[k]) && Unblocks(turns[..k]) == n - 1
    decreases |turns|
  {
    var last := |turns| - 1;
    if Unblocks(turns[..last]) < n {
      k := last;
    } else {
      k := ReachesCount(turns[..last], n);
      assert turns[..last][..k] == turns[..k];
    }
  }

  /** The deadline, the end of the stream or an Exit comes with fewer than two terminators before it. */
  predicate StopBeforeSecond(turns: seq<Turn>) {
    exists j: nat :: j < |turns| && turns[j] in {Late, Ended, Got(Exit)} && Unblocks(turns[..j]) < 2
  }

  /** An ack comes exactly when the first 500 turns hold two terminators and nothing stops the drain before the second. */
  lemma AckIffTwoTerminators(turns: seq<Turn>)
    ensures (exists k: nat :: AckAt(turns, k)) <==> Unblocks(Window(turns)) >= 2 && !StopBeforeSecond(Window(turns))
  {
    var w := Window(turns);
    if k: nat :| AckAt(turns, k) {
      AckHasTwo(turns, k);
    }
    if Unblocks(w) >= 2 && !StopBeforeSecond(w) {
      var k := ReachesCount(w, 2);
      assert w[..k] == turns[..k];
      forall j: nat | j < k ensures !Stops(turns[j]) {
        assert w[j] == turns[j];
        UnblocksGrow(w, j, k);
      }
      assert AckAt(turns, k);
    }
  }

  lemma AckHasTwo(turns: seq<Turn>, k: nat)
    requires AckAt(turns, k)
    ensures Unblocks(Window(turns)) >= 2 && !StopBeforeSecond(Window(turns))
  {
    var w := Window(turns);
    assert w[..k] == turns[..k];
    OneMore(w, k);
    assert w[..|w|] == w;
    UnblocksGrow(w, k + 1, |w|);
    forall j: nat | j < |w| && Unblocks(w[..j]) < 2 ensures !Stops(w[j]) {
      if k < j {
        UnblocksGrow(w, k + 1, j);
      }
    }
  }

  /** What each way to stop gives. */
  lemma StopErrors(turns: seq<Turn>, k: nat, r: Result<ActionAck, DrainError>)
    requires Outcome(turns, r) && StopsAt(turns, k)
    ensures turns[k] in {Late, Ended, Got(Exit)}
    ensures turns[k] == Late ==> r == Failure(TimedOut(k))
    ensures turns[k] == Ended ==> r == Failure(Closed)
    ensures turns[k] == Got(Exit) ==> r == Failure(SessionExited)
  {
  }

  // ─── Lines ───────────────────────────────────────────────────────────────────

  /** Cut at every newline. */
  function Lines(text: string): seq<string> {
    if text == "" then [""]
    else
      var rest := Lines(text[1..]);
      if text[0] == '\n' || rest == [] then [""] + rest else [[text[0]] + rest[0]] + rest[1..]
  }

  lemma {:induction false} LinesHaveNoNewline(text: string)
    ensures Lines(text) != [] && forall line | line in Lines(text) :: '\n' !in line
  {
    if text != "" {
      LinesHaveNoNewline(text[1..]);
    }
  }

  lemma {:induction false} LinesOfOne(line: string)
    requires '\n' !in line
    ensures Lines(line) == [line]
  {
    if line != "" {
      LinesOfOne(line[1..]);
      assert line == [line[0]] + line[1..];
    }
  }

  lemma {:induction false} LinesOfFirst(line: string, text: string)
    requires '\n' !in line
    ensures Lines(line + "\n" + text) == [line] + Lines(text)
  {
    var all := line + "\n" + text;
    if line == "" {
      assert all[1..] == text;
    } else {
      LinesOfFirst(line[1..], text);
      assert all[1..] == line[1..] + "\n" + text;
      assert line == [line[0]] + line[1..];
      LinesHaveNoNewline(text);
    }
  }

  lemma {:induction false} LinesUndoJoin(lines: seq<string>)
    requires lines != [] && forall line | line in lines :: '\n' !in line
    ensures Lines(JoinLines(lines)) == lines
  {
    if |lines| == 1 {
      LinesOfOne(lines[0]);
    } else {
      LinesUndoJoin(lines[1..]);
      LinesOfFirst(lines[0], JoinLines(lines[1..]));
      assert lines == [lines[0]] + lines[1..];
    }
  }

  /** The lines of an ack come apart again at its newlines exactly if none of them holds one. */
  lemma JoinedLinesIff(lines: seq<string>)
    requires lines != []
    ensures Lines(JoinLines(lines)) == lines <==> forall line | line in lines :: '\n' !in line
  {
    LinesHaveNoNewline(JoinLines(lines));
    if forall line | line in lines :: '\n' !in line {
      LinesUndoJoin(lines);
    }
  }

  /** Whether there is text tells whether there were lines. */
  lemma JoinedIff(lines: seq<string>)
    ensures Joined(lines) == None <==> lines == []
    ensures lines != [] ==> Joined(lines) == Some(JoinLines(lines))
  {
  }

  /** One message: `Log` lines are information, `LogError` lines are errors, anything else is neither. */
  lemma LinesOfMessage(t: Turn)
    ensures InfoLines([t]) == (match t case Got(Log(lines)) => lines case _ => [])
    ensures ErrorLines([t]) == (match t case Got(LogError(lines)) => lines case _ => [])
    ensures Unblocks([t]) == if t == Got(UnblockInputThread) then 1 else 0
  {
    assert [t][..0] == [];
    assert [] + InfoOf(t) == InfoOf(t) && [] + ErrorsOf(t) == ErrorsOf(t);
  }

  lemma Grouped(a: seq<string>, b: seq<string>, c: seq<string>)
    ensures a + b + c == a + (b + c)
  {
  }

  lemma {:induction false} InfoInOrder(a: seq<Turn>, b: seq<Turn>)
    ensures InfoLines(a + b) == InfoLines(a) + InfoLines(b)
  {
    if b == [] {
      assert a + b == a;
    } else {
      var front, last, all := b[..|b| - 1], b[|b| - 1], a + b;
      InfoInOrder(a, front);
      assert all[..|all| - 1] == a + front && all[|all| - 1] == last;
      assert InfoLines(all) == InfoLines(a + front) + InfoOf(last);
      assert InfoLines(b) == InfoLines(front) + InfoOf(last);
      Grouped(InfoLines(a), InfoLines(front), InfoOf(last));
    }
  }

  lemma {:induction false} ErrorsInOrder(a: seq<Turn>, b: seq<Turn>)
    ensures ErrorLines(a + b) == ErrorLines(a) + ErrorLines(b)
  {
    if b == [] {
      assert a + b == a;
    } else {
      var front, last, all := b[..|b| - 1], b[|b| - 1], a + b;
      ErrorsInOrder(a, front);
      assert all[..|all| - 1] == a + front && all[|all| - 1] == last;
      assert ErrorLines(all) == ErrorLines(a + front) + ErrorsOf(last);
      assert ErrorLines(b) == ErrorLines(front) + ErrorsOf(last);
      Grouped(ErrorLines(a), ErrorLines(front), ErrorsOf(last));
    }
  }

  lemma {:induction false} UnblocksAdd(a: seq<Turn>, b: seq<Turn>)
    ensures Unblocks(a + b) == Unblocks(a) + Unblocks(b)
  {
    if b == [] {
      assert a + b == a;
    } else {
      UnblocksAdd(a, b[..|b| - 1]);
      assert (a + b)[..|a + b| - 1] == a + b[..|b| - 1];
    }
  }

  /** Later messages add their lines after those of earlier ones. */
  lemma LinesInOrder(a: seq<Turn>, b: seq<Turn>)
    ensures InfoLines(a + b) == InfoLines(a) + InfoLines(b)
    ensures ErrorLines(a + b) == ErrorLines(a) + ErrorLines(b)
    ensures Unblocks(a + b) == Unblocks(a) + Unblocks(b)
  {
    InfoInOrder(a, b);
    ErrorsInOrder(a, b);
    UnblocksAdd(a, b);
  }
}
