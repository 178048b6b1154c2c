/** The middleware that counts request bodies as they arrive, around an arbitrary application. */
module BodyLimit {
  import opened Text

  const MAX_BODY := 10_485_760

  // What the client's channel yields: a piece of the body, or anything else.
  datatype Message = Piece(size: nat) | Other

  // What goes to the client: the start of a response, or a part of one.
  datatype Reply = Start(status: nat) | Part

  // What the application does next; an exception of its own or the limiter's may escape from it.
  datatype Action = Receive | Send(reply: Reply) | Return | Escape(own: bool)

  // The declared length of the request.
  datatype Declared = Absent | Malformed | Length(size: int)

  datatype Outcome = Returned | Raised | RaisedTooLarge | Waiting

  function Size(m: Message): nat { if m.Piece? then m.size else 0 }

  function Total(ms: seq<Message>): nat
  {
    if ms == [] then 0 else Total(ms[..|ms| - 1]) + Size(ms[|ms| - 1])
  }

  lemma TotalSnoc(ms: seq<Message>, m: Message)
    ensures Total(ms + [m]) == Total(ms) + Size(m)
  {
    assert (ms + [m])[..|ms|] == ms;
  }

  /** The total counts the bytes of the body and nothing else. */
  lemma {:induction false} TotalIs(ms: seq<Message>, more: seq<Message>, size: nat)
    ensures Total([]) == 0 && Total([Piece(size)]) == size && Total([Other]) == 0
    ensures Total(ms + more) == Total(ms) + Total(more)
  {
    assert [Piece(size)][..0] == [] && [Other][..0] == [];
    if more == [] {
      assert ms + more == ms;
    } else {
      var n := |more| - 1;
      TotalIs(ms, more[..n], size);
      TotalSnoc(ms + more[..n], more[n]);
      assert ms + more[..n] + [more[n]] == ms + more;
    }
  }

  lemma {:induction false} TotalPrefix(ms: seq<Message>, k: nat)
    requires k <= |ms|
    ensures Total(ms[..k]) <= Total(ms)
  {
    if k < |ms| {
      TotalPrefix(ms[..|ms| - 1], k);
      assert ms[..|ms| - 1][..k] == ms[..k];
    } else {
      assert ms[..k] == ms;
    }
  }

  // How many responses are started.
  function Starts(rs: seq<Reply>): nat
  {
    if rs == [] then 0 else Starts(rs[..|rs| - 1]) + (if rs[|rs| - 1].Start? then 1 else 0)
  }

  lemma StartsSnoc(rs: seq<Reply>, r: Reply)
    ensures Starts(rs + [r]) == Starts(rs) + (if r.Start? then 1 else 0)
  {
    assert (rs + [r])[..|rs|] == rs;
  }

  predicate Begun(rs: seq<Reply>)
  {
    exists i :: 0 <= i < |rs| && rs[i].Start?
  }

  lemma BegunSnoc(rs: seq<Reply>, r: Reply)
    ensures Begun(rs + [r]) <==> Begun(rs) || r.Start?
  {
    assert (rs + [r])[|rs|] == r;
    assert forall i :: 0 <= i < |rs| ==> (rs + [r])[i] == rs[i];
  }

  lemma {:induction false} BegunCounts(rs: seq<Reply>)
    ensures Begun(rs) <==> Starts(rs) > 0
  {
    if rs != [] {
      BegunCounts(rs[..|rs| - 1]);
      assert rs[|rs| - 1].Start? ==> Begun(rs);
    }
  }

  function Refusal(status: nat): seq<Reply> { [Start(status), Part] }

  lemma RefusalStarts(rs: seq<Reply>, status: nat)
    ensures Starts(rs + Refusal(status)) == Starts(rs) + 1
  {
    StartsSnoc(rs, Start(status));
    StartsSnoc(rs + [Start(status)], Part);
    assert rs + [Start(status)] + [Part] == rs + Refusal(status);
  }

  // What the application sends and how often it reads, in these actions.
  function Sends(app: seq<Action>): seq<Reply>
  {
    if app == [] then []
    else Sends(app[..|app| - 1]) + (if app[|app| - 1].Send? then [app[|app| - 1].reply] else [])
  }

  function Reads(app: seq<Action>): nat
  {
    if app == [] then 0 else Reads(app[..|app| - 1]) + (if app[|app| - 1].Receive? then 1 else 0)
  }

  lemma OneMore(app: seq<Action>, n: nat)
    requires n < |app|
    ensures Sends(app[..n + 1]) == Sends(app[..n]) + (if app[n].Send? then [app[n].reply] else [])
    ensures Reads(app[..n + 1]) == Reads(app[..n]) + (if app[n].Receive? then 1 else 0)
  {
    assert app[..n + 1][..n] == app[..n];
  }

  // How the application's part ends after n actions.
  function Ending(app: seq<Action>, n: nat, over: bool): Outcome
    requires n <= |app|
  {
    if n == |app| then Waiting
    else
      match app[n]
      case Return => Returned
      case Escape(own) => if own || !over then Raised else RaisedTooLarge
      case _ => Waiting
  }

  class Connection {
    const stream: seq<Message>        // what the client will send
    var taken: nat                    // how much of it was read
    var delivered: seq<Message>       // what reached the application
    var said: seq<Reply>              // what the application sent
    var sent: seq<Reply>              // what reached the client
    var received: nat
    var started: bool

    constructor (stream: seq<Message>)
      ensures this.stream == stream && Fresh()
    {
      this.stream, taken, delivered, said, sent, received, started := stream, 0, [], [], [], 0, false;
    }

    predicate Fresh()
      reads this
    {
      taken == 0 && delivered == [] && said == [] && sent == [] && received == 0 && !started
    }

    predicate Reading()
      reads this`taken, this`received, this`delivered
    {
      && taken <= |stream| && received == Total(stream[..taken])
      && (received <= MAX_BODY ==> delivered == stream[..taken])
      && Total(delivered) <= MAX_BODY
    }

    // While the application runs, it is the only one that sends.
    predicate Sending()
      reads this`said, this`sent, this`started
    {
      sent == said && (started <==> Begun(sent))
    }

    predicate Valid()
      reads this
    {
      Reading() && Sending()
    }

    /** The next message, unless the limit is passed; from then on every piece is refused. */
    method CountingReceive() returns (m: Option<Message>)
      requires Reading() && taken < |stream|
      modifies this`taken, this`delivered, this`received
      ensures Reading() && taken == old(taken) + 1 && received == Total(stream[..taken])
      ensures m == if stream[old(taken)].Piece? && received > MAX_BODY then None else Some(stream[old(taken)])
      ensures delivered == if m.Some? then old(delivered) + [m.value] else old(delivered)
    {
      var message := stream[taken];
      taken := taken + 1;
      TotalSnoc(stream[..taken - 1], message);
      assert stream[..taken - 1] + [message] == stream[..taken];
      TotalSnoc(delivered, message);
      if message.Piece? {
        received := received + message.size;
        if received > MAX_BODY {
          return None;
        }
      }
      delivered := delivered + [message];
      return Some(message);
    }

    method TrackingSend(reply: Reply)
      requires Sending()
      modifies this`said, this`sent, this`started
      ensures Sending() && said == old(said) + [reply] && sent == old(sent) + [reply]
    {
      BegunSnoc(sent, reply);
      if reply.Start? {
        started := true;
      }
      said, sent := said + [reply], sent + [reply];
    }

    // The first n actions were carried out, and the next one cannot be.
    predicate Followed(app: seq<Action>, n: nat)
      reads this
    {
      && n <= |app| && said == Sends(app[..n]) && taken == Reads(app[..n])
      && (n < |app| ==> !app[n].Send? && (app[n].Receive? ==> taken == |stream|))
    }

    // The application's part: it acts until it returns, an exception escapes, or the client is silent.
    method Run(app: seq<Action>) returns (outcome: Outcome, ghost n: nat)
      requires Valid() && said == [] && taken == 0
      modifies this`taken, this`delivered, this`received, this`said, this`sent, this`started
      ensures Valid() && Followed(app, n) && outcome == Ending(app, n, received > MAX_BODY)
    {
      n := 0;
      for i := 0 to |app|
        invariant Valid() && n == i && said == Sends(app[..i]) && taken == Reads(app[..i])
      {
        OneMore(app, i);
        match app[i] {
          case Receive =>
            if taken == |stream| {
              return Waiting, i;
            }
            var m := CountingReceive();
          case Send(reply) =>
            TrackingSend(reply);
          case Return =>
            return Returned, i;
          case Escape(own) =>
            return (if own || received <= MAX_BODY then Raised else RaisedTooLarge), i;
        }
        n := i + 1;
      }
      outcome := Waiting;
    }

    /** Whatever the application does: it never gets more than the limit; a request within the limit
        passes unchanged in both directions; and a second response is never started. */
    method Call(declared: Declared, app: seq<Action>) returns (outcome: Outcome, ghost n: nat)
      requires Fresh()
      modifies this
      ensures taken <= |stream| && Total(delivered) <= 10_485_760
      ensures
        if declared.Malformed? || (declared.Length? && declared.size > 10_485_760) then
          && outcome == Returned && taken == 0 && delivered == [] && said == []
          && sent == [Start(if declared.Malformed? then 400 else 413), Part]
        else
          && Followed(app, n)
          && (Total(stream) <= 10_485_760 ==>
                delivered == stream[..taken] && sent == said && !outcome.RaisedTooLarge?)
          && (n == |app| || app[n].Receive? ==> outcome == Waiting && sent == said)
          && (n < |app| && app[n].Return? ==> outcome == Returned && sent == said)
          && (n < |app| && app[n].Escape? ==>
                if app[n].own || Total(stream[..taken]) <= 10_485_760 then outcome == Raised && sent == said
                else if Starts(said) > 0 then outcome == RaisedTooLarge && sent == said
                else outcome == Returned && sent == said + [Start(413), Part])
      ensures Starts(said) <= 1 ==> Starts(sent) <= 1
    {
      assert Total([]) == 0 && Starts([]) == 0 && stream[..0] == [];
      BegunCounts([]);
      RefusalStarts([], 400);
      RefusalStarts([], 413);
      assert [] + Refusal(400) == Refusal(400) && [] + Refusal(413) == Refusal(413);
      if declared.Malformed? {
        sent := Refusal(400);
        return Returned, 0;
      }
      if declared.Length? && declared.size > MAX_BODY {
        sent := Refusal(413);
        return Returned, 0;
      }
      outcome, n := Run(app);
      TotalPrefix(stream, taken);
      BegunCounts(said);
      if outcome.RaisedTooLarge? && !started {
        RefusalStarts(sent, 413);
        sent := sent + Refusal(413);
        outcome := Returned;
      }
    }
  }
}
