/** The captured response body of the HTTP transport and its staging file (networkcapture/http.go). */
module HttpBody {
  import opened CaptureDisk

  type Error = int

  datatype End = More | Eof | Failed(error: Error)

  /** One answer of the inner reader: some bytes, and whether reading goes on. */
  datatype Reply = Reply(bytes: Bytes, end: End)

  /** One write to the staging file: complete, or cut short by an error. */
  datatype Written = All | Short(count: nat)

  /** One call of the transport's save: joined read errors, staging trouble, and the staged bytes. */
  datatype Saved = Saved(readErrors: seq<Error>, stageError: bool, staged: Bytes)

  /**
   * `replies` are the inner reader's answers to come (then end of file for ever), `writes` the outcomes
   * of coming writes (then success), `closeFails` whether closing the staging file fails.
   * `readErrors` is the joined error, empty for none.
   */
  datatype State = State(
    replies: seq<Reply>, writes: seq<Written>, closeFails: bool,
    open: bool, staged: Bytes, stageError: bool, readErrors: seq<Error>, done: bool, saves: seq<Saved>)

  predicate Initial(s: State) {
    s.staged == [] && s.readErrors == [] && !s.done && s.saves == []
  }

  // ------------------------------------------------------------------- steps

  function NextReply(s: State): Reply {
    if s.replies == [] then Reply([], Eof) else s.replies[0]
  }

  function Stage(s: State, bytes: Bytes): State {
    if bytes == [] || !s.open || s.stageError then s
    else if s.writes == [] then s.(staged := s.staged + bytes)
    else
      var rest := s.(writes := s.writes[1..]);
      match s.writes[0]
      case All => rest.(staged := s.staged + bytes)
      case Short(count) =>
        rest.(staged := s.staged + (if count < |bytes| then bytes[..count] else bytes), stageError := true)
  }

  function Complete(s: State): State {
    if s.done then s
    else
      var stageError := s.stageError || (s.open && s.closeFails);
      s.(open := false, stageError := stageError, done := true,
         saves := s.saves + [Saved(s.readErrors, stageError, s.staged)])
  }

  function ReadStep(s: State): State {
    var reply := NextReply(s);
    var consumed := s.(replies := if s.replies == [] then [] else s.replies[1..]);
    var staged := Stage(consumed, reply.bytes);
    match reply.end
    case More => staged
    case Eof => Complete(staged)
    case Failed(error) => Complete(staged.(readErrors := [error]))
  }

  /** Reads until the inner reader ends. */
  function Drain(s: State): State
    decreases |s.replies|
  {
    if NextReply(s).end.More? then Drain(ReadStep(s)) else ReadStep(s)
  }

  function ErrorOf(end: End): seq<Error> {
    if end.Failed? then [end.error] else []
  }

  /** The error draining ends with; an end of file is none. */
  function DrainError(s: State): seq<Error>
    decreases |s.replies|
  {
    if NextReply(s).end.More? then DrainError(ReadStep(s)) else ErrorOf(NextReply(s).end)
  }

  function CloseStep(s: State, innerError: seq<Error>): State {
    var drained := if s.readErrors == [] then Drain(s).(readErrors := DrainError(s)) else s;
    Complete(drained.(readErrors := drained.readErrors + innerError))
  }

  // ---------------------------------------------------------------- the body

  class CapturingBody {
    var replies: seq<Reply>
    var writes: seq<Written>
    var closeFails: bool
    var open: bool
    var staged: Bytes
    var stageError: bool
    var readErrors: seq<Error>
    var done: bool
    var saves: seq<Saved>

    ghost function View(): State
      reads this
    {
      State(replies, writes, closeFails, open, staged, stageError, readErrors, done, saves)
    }

    constructor (replies: seq<Reply>, writes: seq<Written>, closeFails: bool, open: bool, stageError: bool)
      ensures Initial(View())
      ensures View() == State(replies, writes, closeFails, open, [], stageError, [], false, [])
    {
      this.replies, this.writes, this.closeFails := replies, writes, closeFails;
      this.open, this.stageError := open, stageError;
      staged, readErrors, done, saves := [], [], false, [];
    }

    /** The inner reader's next answer. */
    method ReadInner() returns (reply: Reply)
      modifies this`replies
      ensures reply == NextReply(old(View()))
      ensures replies == if old(replies) == [] then [] else old(replies)[1..]
    {
      if replies == [] {
        reply := Reply([], Eof);
      } else {
        reply, replies := replies[0], replies[1..];
      }
    }

    method WriteStage(bytes: Bytes)
      requires bytes != [] && open && !stageError
      modifies this`staged, this`writes, this`stageError
      ensures View() == Stage(old(View()), bytes)
    {
      var written := All;
      if writes != [] {
        written, writes := writes[0], writes[1..];
      }
      if written.Short? {
        staged := staged + if written.count < |bytes| then bytes[..written.count] else bytes;
        stageError := true;
      } else {
        staged := staged + bytes;
      }
    }

    method CloseStage()
      modifies this`open, this`stageError
      ensures !open && stageError == (old(stageError) || (old(open) && closeFails))
    {
      if !open {
        return;
      }
      stageError := stageError || closeFails;
      open := false;
    }

    method Finish()
      modifies this
      ensures View() == Complete(old(View()))
    {
      if done {
        return;
      }
      done := true;
      CloseStage();
      saves := saves + [Saved(readErrors, stageError, staged)];
    }

    /** Passes on what the inner reader answers, and captures it on the way. */
    method Read() returns (bytes: Bytes, end: End)
      modifies this
      ensures Reply(bytes, end) == NextReply(old(View()))
      ensures View() == ReadStep(old(View()))
    {
      var reply := ReadInner();
      bytes, end := reply.bytes, reply.end;
      if |bytes| > 0 && open && !stageError {
        WriteStage(bytes);
      }
      if !end.More? {
        if end.Failed? {
          readErrors := [end.error];
        }
        Finish();
      }
    }

    /** Drains what is left, closes the inner reader (which answers `innerError`) and completes. */
    method Close(innerError: seq<Error>) returns (r: seq<Error>)
      modifies this
      ensures r == innerError
      ensures View() == CloseStep(old(View()), innerError)
    {
      if readErrors == [] {
        ghost var start := View();
        var bytes, end := Read();
        while end.More?
          invariant Drain(start) == if end.More? then Drain(View()) else View()
          invariant DrainError(start) == if end.More? then DrainError(View()) else ErrorOf(end)
          decreases end.More?, |replies|
        {
          bytes, end := Read();
        }
        readErrors := if end.Failed? then [end.error] else [];
      }
      readErrors := readErrors + innerError;
      Finish();
      r := innerError;
    }
  }

  // -------------------------------------------------------------------- runs

  datatype Call = Read | Close(innerError: seq<Error>)

  function Do(s: State, call: Call): State {
    match call
    case Read => ReadStep(s)
    case Close(innerError) => CloseStep(s, innerError)
  }

  function Run(s: State, calls: seq<Call>): State
    decreases |calls|
  {
    if calls == [] then s else Run(Do(s, calls[0]), calls[1..])
  }

  /** What the reader answers to the n-th call from now. */
  function Answer(s: State, n: nat): Reply {
    if n < |s.replies| then s.replies[n] else Reply([], Eof)
  }

  /** What the Read calls of a run return, in order. */
  function Returned(s: State, calls: seq<Call>): seq<Reply>
    decreases |calls|
  {
    if calls == [] then []
    else (if calls[0].Read? then [NextReply(s)] else []) + Returned(Do(s, calls[0]), calls[1..])
  }

  /** The whole body: everything up to the reader's first end of file or failure. */
  function Body(replies: seq<Reply>): Bytes {
    if replies == [] then []
    else if replies[0].end.More? then replies[0].bytes + Body(replies[1..])
    else replies[0].bytes
  }

  /** How the body ends. */
  function BodyEnd(replies: seq<Reply>): End {
    if replies == [] then Eof
    else if replies[0].end.More? then BodyEnd(replies[1..])
    else replies[0].end
  }

  predicate Ends(reply: Reply) {
    !reply.end.More?
  }

  // ----------------------------------------------------------------- theorems

  /** Capturing is invisible: until Close, the caller's reads get exactly the inner reader's answers. */
  lemma {:induction false} CallersSeeTheInnerReader(s: State, calls: seq<Call>)
    requires forall call :: call in calls ==> call.Read?
    ensures |Returned(s, calls)| == |calls|
    ensures forall i :: 0 <= i < |calls| ==> Returned(s, calls)[i] == Answer(s, i)
    decreases |calls|
  {
    if calls != [] {
      assert calls[0].Read?;
      var next := ReadStep(s);
      CallersSeeTheInnerReader(next, calls[1..]);
      assert Returned(s, calls) == [NextReply(s)] + Returned(next, calls[1..]);
      hide Returned, ReadStep, Do;
      forall i | 0 <= i < |calls| ensures Returned(s, calls)[i] == Answer(s, i) {
        if i > 0 {
          AnswerAfterRead(s, i - 1);
        }
      }
    }
  }

  lemma AnswerAfterRead(s: State, n: nat)
    ensures Answer(ReadStep(s), n) == Answer(s, n + 1)
  {
  }

  /** What holds of every state a run reaches. */
  predicate Reached(s: State) {
    && (!s.done ==> s.saves == [] && s.readErrors == [])
    && (s.done ==> |s.saves| == 1)
  }

  /** The save a state has made, or will make however it goes on. */
  function Fate(s: State): seq<Saved> {
    if s.done then s.saves else Drain(s).saves
  }

  lemma {:induction false} DrainIsDone(s: State)
    requires Reached(s)
    ensures Reached(Drain(s)) && Drain(s).done
    ensures s.done ==> Drain(s).saves == s.saves
    ensures s.readErrors == [] && !s.done ==> Drain(s).readErrors == DrainError(s)
    decreases |s.replies|
  {
    if NextReply(s).end.More? {
      DrainIsDone(ReadStep(s));
    }
  }

  /** Neither reading nor closing changes the one save to come or already made. */
  lemma DoKeepsFate(s: State, call: Call)
    requires Reached(s)
    ensures Reached(Do(s, call))
    ensures Fate(Do(s, call)) == Fate(s)
    ensures Do(s, call).done <==> s.done || call.Close? || Ends(NextReply(s))
  {
    DrainIsDone(s);
    if call.Close? && s.readErrors == [] {
      assert Do(s, call).saves == Drain(s).saves;
    }
  }

  lemma {:induction false} RunKeepsFate(s: State, calls: seq<Call>)
    requires Reached(s)
    ensures Reached(Run(s, calls))
    ensures Fate(Run(s, calls)) == Fate(s)
    decreases |calls|
  {
    if calls != [] {
      DoKeepsFate(s, calls[0]);
      RunKeepsFate(Do(s, calls[0]), calls[1..]);
    }
  }

  /**
   * For every sequence of Read and Close calls: the exchange is saved at most once, and it has been saved
   * exactly when some call was a Close or some read met the end of the body.
   */
  lemma {:induction false} SavedExactlyOnce(s: State, calls: seq<Call>)
    requires Initial(s)
    ensures |Run(s, calls).saves| <= 1
    ensures |Run(s, calls).saves| == 1 <==>
            (exists call :: call in calls && call.Close?) ||
            (exists i :: 0 <= i < |calls| && Ends(Answer(s, i)))
  {
    RunKeepsFate(s, calls);
    SavedWhen(s, calls);
  }

  lemma {:induction false} SavedWhen(s: State, calls: seq<Call>)
    requires Reached(s)
    ensures Run(s, calls).done <==>
            s.done || (exists call :: call in calls && call.Close?) ||
            (exists i :: 0 <= i < |calls| && Ends(Answer(s, i)))
    decreases |calls|
  {
    if calls != [] {
      var next := Do(s, calls[0]);
      DoKeepsFate(s, calls[0]);
      SavedWhen(next, calls[1..]);
      assert calls == [calls[0]] + calls[1..];
      if !next.done {
        assert calls[0].Read?;
        forall i | 0 <= i < |calls| - 1 ensures Answer(next, i) == Answer(s, i + 1) {
        }
        assert forall i :: 0 < i < |calls| ==> Answer(s, i) == Answer(next, i - 1);
      } else if Ends(NextReply(s)) {
        assert Ends(Answer(s, 0));
      }
    }
  }

  /** One read stages its bytes if the file is sound before and after, and never more than its bytes. */
  lemma ReadStages(s: State)
    requires Reached(s) && !s.done
    ensures var next := ReadStep(s);
            var bytes := NextReply(s).bytes;
            && next.done == Ends(NextReply(s))
            && (next.done ==> next.saves == [Saved(ErrorOf(NextReply(s).end), next.stageError, next.staged)])
            && (!next.done ==> next.open == s.open && Reached(next))
            && (s.stageError ==> next.stageError)
            && (if !s.open || s.stageError then next.staged == s.staged
                else s.staged <= next.staged <= s.staged + bytes)
            && (s.open && !next.stageError ==> next.staged == s.staged + bytes)
            && (next.stageError && !next.done && !s.stageError ==> s.open)
  {
  }

  /** Draining from the start stages the whole body when nothing goes wrong with the file, and else a prefix. */
  lemma {:induction false} DrainStages(s: State)
    requires Reached(s) && !s.done
    ensures Drain(s).saves == [Saved(ErrorOf(BodyEnd(s.replies)), Drain(s).stageError, Drain(s).staged)]
    ensures s.open && !Drain(s).stageError ==> Drain(s).staged == s.staged + Body(s.replies)
    ensures s.staged <= Drain(s).staged
    ensures !s.stageError ==> Drain(s).staged <= s.staged + Body(s.replies)
    ensures !s.open || s.stageError ==> Drain(s).staged == s.staged
    ensures s.stageError ==> Drain(s).stageError
    decreases |s.replies|
  {
    var next := ReadStep(s);
    ReadStages(s);
    BodyStep(s);
    assert Drain(s) == if NextReply(s).end.More? then Drain(next) else next;
    assert NextReply(s).end.More? ==> |next.replies| < |s.replies|;
    hide ReadStep, Body, BodyEnd, Drain, NextReply, ErrorOf;
    if NextReply(s).end.More? {
      DrainStages(next);
      BytesAssociate(s.staged, NextReply(s).bytes, Body(next.replies), next.staged);
    }
  }

  lemma BytesAssociate(a: Bytes, b: Bytes, c: Bytes, d: Bytes)
    ensures a + (b + c) == (a + b) + c
    ensures d <= a + b ==> d <= a + (b + c)
  {
    assert a + (b + c) == (a + b) + c;
  }

  lemma BodyStep(s: State)
    ensures var reply := NextReply(s);
            var rest := ReadStep(s).replies;
            && Body(s.replies) == (if reply.end.More? then reply.bytes + Body(rest) else reply.bytes)
            && BodyEnd(s.replies) == (if reply.end.More? then BodyEnd(rest) else reply.end)
  {
  }

  /**
   * However the caller reads and closes, what is saved is determined by the body alone: its read error, the
   * whole body if the staging file was opened and never failed, and otherwise a prefix of the body. In
   * particular bytes drained by Close are staged, bytes read after the end are not, and an error from
   * closing the inner body never reaches the saved exchange.
   */
  lemma SaveIsTheWholeBody(s: State, calls: seq<Call>)
    requires Initial(s) && Run(s, calls).saves != []
    ensures |Run(s, calls).saves| == 1
    ensures var saved := Run(s, calls).saves[0];
            && saved.readErrors == ErrorOf(BodyEnd(s.replies))
            && (s.open && !saved.stageError ==> saved.staged == Body(s.replies))
            && saved.staged <= Body(s.replies)
            && (!s.open || s.stageError ==> saved.staged == [])
  {
    hide Run, Drain, Body, BodyEnd;
    RunKeepsFate(s, calls);
    DrainStages(s);
    assert [] + Body(s.replies) == Body(s.replies);
  }
}
