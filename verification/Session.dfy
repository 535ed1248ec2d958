/**
  One `Exchange` and one `ServeOne` at the two ends of a connection, byte by byte
  and in any interleaving. In each direction up to `cap` bytes may be on their
  way; with none, as in `net.Pipe`, bytes only pass from a write to a read. A
  reader takes the bytes of its frame in any fragments and never one too many.
  When `closes`, each end closes its side of the connection once its call has
  returned: then a write of the other end fails, and a read finds the end of the
  stream once nothing is on its way any more.
*/
module Session {
  import opened Wrappers
  import opened Runs
  import opened Framing

  datatype Setup = Setup(
    request: seq<Byte>,
    handler: seq<Byte> -> Handled,
    clientMax: int,
    serverMax: int,
    cap: nat,
    closes: bool)

  datatype Client = Sending(rest: seq<Byte>) | Awaiting | Done(result: ReadResult) | CutOff

  datatype Server = Receiving | Replying(rest: seq<Byte>) | Gone(result: ServeResult)

  datatype State = State(
    setup: Setup,
    client: Client,
    server: Server,
    there: seq<Byte>,
    back: seq<Byte>,
    serverGot: seq<Byte>,
    clientGot: seq<Byte>)

  datatype Action =
    | SendPut(n: nat)
    | SendPass(n: nat)
    | SendDone
    | SendFails
    | ServerGet(n: nat)
    | ServerDecides
    | ServerSeesEnd
    | ReplyPut(n: nat)
    | ReplyPass(n: nat)
    | ReplyDone
    | ReplyFails(error: string)
    | ClientGet(n: nat)
    | ClientDecides
    | ClientSeesEnd

  function Init(setup: Setup): State {
    State(setup, Sending(Encode(setup.request)), Receiving, [], [], [], [])
  }

  /** How many more bytes a reader asks for that has `got` these. */
  function Want(got: seq<Byte>, maxFrameSize: int): nat {
    if |got| < 4 then 4 - |got|
    else if Value(got[..4]) > EffectiveMax(maxFrameSize) then 0
    else if |got| < 4 + Value(got[..4]) then 4 + Value(got[..4]) - |got|
    else 0
  }

  predicate ClientGone(s: State) { s.client.Done? || s.client.CutOff? }

  /** The server's read is over: what it returns, or the reply it begins to write. */
  function Decide(setup: Setup, read: ReadResult): Server {
    match read
    case ReadFailed(err) => Gone(ServeRead(err))
    case Payload(payload) =>
      match setup.handler(payload)
      case HandlerFailed(error) => Gone(ServeHandler(error))
      case Responded(response) => Replying(Encode(response))
  }

  function ClientStep(s: State, a: Action): Option<State> {
    match a
    case SendPut(n) =>
      if s.client.Sending? && 1 <= n <= |s.client.rest| && |s.there| + n <= s.setup.cap
      then Some(s.(client := Sending(s.client.rest[n..]), there := s.there + s.client.rest[..n]))
      else None
    case SendPass(n) =>
      if s.client.Sending? && s.there == [] && s.server.Receiving? &&
         1 <= n <= |s.client.rest| && n <= Want(s.serverGot, s.setup.serverMax)
      then Some(s.(client := Sending(s.client.rest[n..]), serverGot := s.serverGot + s.client.rest[..n]))
      else None
    case SendDone => if s.client == Sending([]) then Some(s.(client := Awaiting)) else None
    case SendFails =>
      if s.client.Sending? && s.client.rest != [] && s.server.Gone? && s.setup.closes
      then Some(s.(client := CutOff)) else None
    case ClientGet(n) =>
      if s.client.Awaiting? && 1 <= n <= |s.back| && n <= Want(s.clientGot, s.setup.clientMax)
      then Some(s.(back := s.back[n..], clientGot := s.clientGot + s.back[..n]))
      else None
    case ClientDecides =>
      if s.client.Awaiting? && Want(s.clientGot, s.setup.clientMax) == 0
      then Some(s.(client := Done(Decode(s.clientGot, s.setup.clientMax, Clean).0))) else None
    case ClientSeesEnd =>
      if s.client.Awaiting? && Want(s.clientGot, s.setup.clientMax) > 0 &&
         s.back == [] && s.server.Gone? && s.setup.closes
      then Some(s.(client := Done(Decode(s.clientGot, s.setup.clientMax, Clean).0))) else None
    case _ => None
  }

  function ServerStep(s: State, a: Action): Option<State> {
    match a
    case ServerGet(n) =>
      if s.server.Receiving? && 1 <= n <= |s.there| && n <= Want(s.serverGot, s.setup.serverMax)
      then Some(s.(there := s.there[n..], serverGot := s.serverGot + s.there[..n]))
      else None
    case ServerDecides =>
      if s.server.Receiving? && Want(s.serverGot, s.setup.serverMax) == 0
      then Some(s.(server := Decide(s.setup, Decode(s.serverGot, s.setup.serverMax, Clean).0))) else None
    case ServerSeesEnd =>
      if s.server.Receiving? && Want(s.serverGot, s.setup.serverMax) > 0 &&
         s.there == [] && ClientGone(s) && s.setup.closes
      then Some(s.(server := Decide(s.setup, Decode(s.serverGot, s.setup.serverMax, Clean).0))) else None
    case ReplyPut(n) =>
      if s.server.Replying? && 1 <= n <= |s.server.rest| && |s.back| + n <= s.setup.cap
      then Some(s.(server := Replying(s.server.rest[n..]), back := s.back + s.server.rest[..n]))
      else None
    case ReplyPass(n) =>
      if s.server.Replying? && s.back == [] && s.client.Awaiting? &&
         1 <= n <= |s.server.rest| && n <= Want(s.clientGot, s.setup.clientMax)
      then Some(s.(server := Replying(s.server.rest[n..]), clientGot := s.clientGot + s.server.rest[..n]))
      else None
    case ReplyDone => if s.server == Replying([]) then Some(s.(server := Gone(Served))) else None
    case ReplyFails(error) =>
      if s.server.Replying? && s.server.rest != [] && ClientGone(s) && s.setup.closes
      then Some(s.(server := Gone(ServeWrite(WriteFailed(error))))) else None
    case _ => None
  }

  predicate OfClient(a: Action) {
    a.SendPut? || a.SendPass? || a.SendDone? || a.SendFails? || a.ClientGet? || a.ClientDecides? || a.ClientSeesEnd?
  }

  function Step(s: State, a: Action): Option<State> {
    if OfClient(a) then ClientStep(s, a) else ServerStep(s, a)
  }

  // ----- what a reader takes of a frame

  /** So many bytes of the frame of a payload a reader takes; a frame too large it refuses behind the header. */
  function TakeLen(payload: seq<Byte>, maxFrameSize: int): (n: nat)
    ensures 4 <= n <= |Encode(payload)|
  {
    if Taken(payload, maxFrameSize) then 4 + |Carried(payload)| else 4
  }

  /** And so many it leaves. */
  function Unread(payload: seq<Byte>, maxFrameSize: int): nat {
    |Encode(payload)| - TakeLen(payload, maxFrameSize)
  }

  /** What it makes of the frame. */
  function Reads(payload: seq<Byte>, maxFrameSize: int): ReadResult {
    if Taken(payload, maxFrameSize) then Payload(Carried(payload)) else ReadFailed(FrameTooLarge)
  }

  lemma FrameParts(payload: seq<Byte>, k: nat)
    requires 4 <= k <= |Encode(payload)|
    ensures Encode(payload)[..k] == Header(|payload|) + payload[..k - 4]
    ensures Encode(payload)[..k][..4] == Header(|payload|) && Value(Header(|payload|)) == |Carried(payload)|
  {
    HeaderValue(|payload|);
  }

  /** With less it asks for no more than is missing, and for something. */
  lemma WantsMore(payload: seq<Byte>, k: nat, maxFrameSize: int)
    requires k <= TakeLen(payload, maxFrameSize)
    ensures Want(Encode(payload)[..k], maxFrameSize) <= TakeLen(payload, maxFrameSize) - k
    ensures Want(Encode(payload)[..k], maxFrameSize) == 0 <==> k == TakeLen(payload, maxFrameSize)
  {
    if k >= 4 {
      FrameParts(payload, k);
    }
  }

  lemma ReadsWhole(payload: seq<Byte>, maxFrameSize: int)
    ensures Decode(Encode(payload)[..TakeLen(payload, maxFrameSize)], maxFrameSize, Clean).0
            == Reads(payload, maxFrameSize)
  {
    var k := TakeLen(payload, maxFrameSize);
    FrameParts(payload, k);
    DecodeBehind(Header(|payload|), payload[..k - 4], maxFrameSize, Clean);
  }

  // ----- the invariant

  /** The reply to this request, if there is one. */
  function Reply(setup: Setup): Option<seq<Byte>> {
    if !Taken(setup.request, setup.serverMax) then None
    else
      match setup.handler(Carried(setup.request))
      case HandlerFailed(_) => None
      case Responded(response) => Some(response)
  }

  function Unsent(s: State): seq<Byte> { if s.client.Sending? then s.client.rest else [] }

  function Unreplied(s: State): seq<Byte> { if s.server.Replying? then s.server.rest else [] }

  /** The request: read, on its way and still to be written make up its frame. */
  ghost predicate RequestFlows(s: State) {
    var u := s.setup;
    && |s.there| <= u.cap && |s.serverGot| <= TakeLen(u.request, u.serverMax)
    && (!s.client.CutOff? ==> s.serverGot + s.there + Unsent(s) == Encode(u.request))
    && s.serverGot <= Encode(u.request)
    && (!s.server.Receiving? ==> |s.serverGot| == TakeLen(u.request, u.serverMax))
  }

  /** The reply: likewise, from the moment that the server has decided. */
  ghost predicate ReplyFlows(s: State) {
    var u := s.setup;
    && |s.back| <= u.cap && (s.client.Sending? || s.client.CutOff? ==> s.clientGot == [])
    && (Reply(u).None? || s.server.Receiving? ==> s.back == s.clientGot == [] && !s.server.Replying?)
    && (Reply(u).Some? && !s.server.Receiving? ==>
          && |s.clientGot| <= TakeLen(Reply(u).value, u.clientMax) && s.clientGot <= Encode(Reply(u).value)
          && (s.server.Replying? || s.server == Gone(Served) ==>
                s.clientGot + s.back + Unreplied(s) == Encode(Reply(u).value)))
  }

  /** What the server returns when none of its writes fails. */
  function ServerAnswer(setup: Setup): ServeResult {
    if !Taken(setup.request, setup.serverMax) then ServeRead(FrameTooLarge)
    else
      match setup.handler(Carried(setup.request))
      case HandlerFailed(error) => ServeHandler(error)
      case Responded(_) => Served
  }

  /** What the client reads when none of its writes fails. */
  function ClientAnswer(setup: Setup): ReadResult {
    match Reply(setup)
    case None => ReadFailed(EOF)
    case Some(response) => Reads(response, setup.clientMax)
  }

  /** What either end is told. */
  ghost predicate Told(s: State) {
    var u := s.setup;
    && (s.client.Done? ==>
          && s.client.result == ClientAnswer(u) && !s.server.Receiving?
          && (Reply(u).None? ==> s.setup.closes)
          && (Reply(u).Some? ==> |s.clientGot| == TakeLen(Reply(u).value, u.clientMax)))
    && (s.client.CutOff? ==> u.closes && s.server.Gone? && Unread(u.request, u.serverMax) > 0)
    && (s.server.Gone? ==>
          || s.server.result == ServerAnswer(u)
          || (s.server.result.ServeWrite? && Reply(u).Some? && u.closes && ClientGone(s) &&
              s.client.Done? && Unread(Reply(u).value, u.clientMax) > 0))
  }

  ghost predicate Inv(s: State) { RequestFlows(s) && ReplyFlows(s) && Told(s) }

  lemma InitInv(setup: Setup)
    ensures Inv(Init(setup))
  {
  }

  /** Moving bytes along keeps their order. */
  lemma Along(a: seq<Byte>, b: seq<Byte>, c: seq<Byte>, n: nat)
    ensures n <= |c| ==> a + (b + c[..n]) + c[n..] == a + b + c
    ensures n <= |b| ==> (a + b[..n]) + b[n..] + c == a + b + c
    ensures n <= |c| && b == [] ==> (a + c[..n]) + b + c[n..] == a + b + c
  {
  }

  lemma Front(a: seq<Byte>, b: seq<Byte>, c: seq<Byte>, whole: seq<Byte>)
    requires a + b + c == whole
    ensures a == whole[..|a|] && a <= whole
  {
  }

  lemma SendInv(s: State, a: Action)
    requires Inv(s) && (a.SendPut? || a.SendPass? || a.SendDone? || a.SendFails?) && Step(s, a).Some?
    ensures Inv(Step(s, a).value)
  {
    var t := Step(s, a).value;
    Front(s.serverGot, s.there, Unsent(s), Encode(s.setup.request));
    WantsMore(s.setup.request, |s.serverGot|, s.setup.serverMax);
    if a.SendPut? || a.SendPass? {
      Along(s.serverGot, s.there, s.client.rest, a.n);
      Front(t.serverGot, t.there, Unsent(t), Encode(s.setup.request));
    }
  }

  lemma ServerGetInv(s: State, n: nat)
    requires Inv(s) && Step(s, ServerGet(n)).Some?
    ensures Inv(Step(s, ServerGet(n)).value)
  {
    var t := Step(s, ServerGet(n)).value;
    Front(s.serverGot, s.there, Unsent(s), Encode(s.setup.request));
    WantsMore(s.setup.request, |s.serverGot|, s.setup.serverMax);
    Along(s.serverGot, s.there, Unsent(s), n);
    Front(t.serverGot, t.there, Unsent(t), Encode(s.setup.request));
  }

  /** The server decides on the whole frame, and never on a stream that has ended. */
  lemma DecideInv(s: State, a: Action)
    requires Inv(s) && (a.ServerDecides? || a.ServerSeesEnd?) && Step(s, a).Some?
    ensures a.ServerDecides? && Inv(Step(s, a).value)
  {
    Front(s.serverGot, s.there, Unsent(s), Encode(s.setup.request));
    WantsMore(s.setup.request, |s.serverGot|, s.setup.serverMax);
    ReadsWhole(s.setup.request, s.setup.serverMax);
  }

  lemma ReplyInv(s: State, a: Action)
    requires Inv(s) && (a.ReplyPut? || a.ReplyPass? || a.ReplyDone? || a.ReplyFails?) && Step(s, a).Some?
    ensures Inv(Step(s, a).value)
  {
    var t, response := Step(s, a).value, Reply(s.setup).value;
    Front(s.clientGot, s.back, Unreplied(s), Encode(response));
    WantsMore(response, |s.clientGot|, s.setup.clientMax);
    if a.ReplyPut? || a.ReplyPass? {
      Along(s.clientGot, s.back, s.server.rest, a.n);
      Front(t.clientGot, t.back, Unreplied(t), Encode(response));
    }
  }

  lemma ClientGetInv(s: State, n: nat)
    requires Inv(s) && Step(s, ClientGet(n)).Some?
    ensures Inv(Step(s, ClientGet(n)).value)
  {
    var t, response := Step(s, ClientGet(n)).value, Reply(s.setup).value;
    Front(s.clientGot, s.back, Unreplied(s), Encode(response));
    WantsMore(response, |s.clientGot|, s.setup.clientMax);
    Along(s.clientGot, s.back, Unreplied(s), n);
    Front(t.clientGot, t.back, Unreplied(t), Encode(response));
  }

  /** The client's read is over: with the reply, or without one at the end of the stream. */
  lemma ClientEndInv(s: State, a: Action)
    requires Inv(s) && (a.ClientDecides? || a.ClientSeesEnd?) && Step(s, a).Some?
    ensures Inv(Step(s, a).value)
  {
    if Reply(s.setup).Some? && !s.server.Receiving? {
      var response := Reply(s.setup).value;
      WantsMore(response, |s.clientGot|, s.setup.clientMax);
      ReadsWhole(response, s.setup.clientMax);
    }
  }

  lemma StepInv(s: State, a: Action)
    requires Inv(s) && Step(s, a).Some?
    ensures Inv(Step(s, a).value) && Step(s, a).value.setup == s.setup
  {
    match a
    case SendPut(_) => SendInv(s, a);
    case SendPass(_) => SendInv(s, a);
    case SendDone => SendInv(s, a);
    case SendFails => SendInv(s, a);
    case ServerGet(n) => ServerGetInv(s, n);
    case ServerDecides => DecideInv(s, a);
    case ServerSeesEnd => DecideInv(s, a);
    case ReplyPut(_) => ReplyInv(s, a);
    case ReplyPass(_) => ReplyInv(s, a);
    case ReplyDone => ReplyInv(s, a);
    case ReplyFails(_) => ReplyInv(s, a);
    case ClientGet(n) => ClientGetInv(s, n);
    case ClientDecides => ClientEndInv(s, a);
    case ClientSeesEnd => ClientEndInv(s, a);
  }

  /** After every run each end has an intact part of the other's frame, in order, and is told what belongs to it. */
  lemma EveryRun(setup: Setup, run: seq<Action>)
    requires Exec(Step, Init(setup), run).Some?
    ensures Inv(Exec(Step, Init(setup), run).value) && Exec(Step, Init(setup), run).value.setup == setup
  {
    var inv := (s: State) => Inv(s) && s.setup == setup;
    forall s: State, a: Action | inv(s) && Step(s, a).Some? ensures inv(Step(s, a).value) {
      StepInv(s, a);
    }
    InitInv(setup);
    Invariant(Step, inv, Init(setup), run);
  }

  // ----- every run ends

  function ClientWeight(c: Client): nat {
    match c
    case Sending(rest) => 2 * |rest| + 2
    case Awaiting => 1
    case _ => 0
  }

  function ServerWeight(s: State): nat {
    match s.server
    case Receiving => (match Reply(s.setup) case None => 0 case Some(response) => 2 * |Encode(response)|) + 2
    case Replying(rest) => 2 * |rest| + 1
    case Gone(_) => 0
  }

  function Rank(s: State): nat { ClientWeight(s.client) + ServerWeight(s) + |s.there| + |s.back| }

  lemma StepLowersRank(s: State, a: Action)
    requires Inv(s) && Step(s, a).Some?
    ensures Rank(Step(s, a).value) < Rank(s)
  {
    if a.ServerDecides? || a.ServerSeesEnd? {
      DecideInv(s, a);
      Front(s.serverGot, s.there, Unsent(s), Encode(s.setup.request));
      WantsMore(s.setup.request, |s.serverGot|, s.setup.serverMax);
      ReadsWhole(s.setup.request, s.setup.serverMax);
    }
  }

  lemma RunsBounded(setup: Setup, run: seq<Action>)
    requires Exec(Step, Init(setup), run).Some?
    ensures |run| <= Rank(Init(setup))
  {
    InitInv(setup);
    forall s: State, a: Action | Inv(s) && Step(s, a).Some?
      ensures Inv(Step(s, a).value) && Rank(Step(s, a).value) < Rank(s)
    {
      StepInv(s, a);
      StepLowersRank(s, a);
    }
    Bounded(Step, s => Inv(s), Rank, Init(setup), run);
  }

  ghost predicate Stuck(s: State) { forall a: Action :: Step(s, a).None? }

  predicate BothReturned(s: State) { ClientGone(s) && s.server.Gone? }

  /**
    Without closing there must be a reply, and what either reader leaves of a frame
    must find a place on the connection. With closing a call is stuck only when
    both are writing: what is left of the request and the whole reply both find
    no place.
  */
  predicate Completes(setup: Setup) {
    match Reply(setup)
    case None => setup.closes
    case Some(response) =>
      if setup.closes then Unread(setup.request, setup.serverMax) <= setup.cap || |Encode(response)| <= setup.cap
      else Unread(setup.request, setup.serverMax) <= setup.cap && Unread(response, setup.clientMax) <= setup.cap
  }

  // ----- when both calls return

  /** Until the server has decided, the request moves on. */
  lemma RequestMoves(s: State) returns (a: Action)
    requires Inv(s) && s.server.Receiving?
    ensures Step(s, a).Some?
  {
    Front(s.serverGot, s.there, Unsent(s), Encode(s.setup.request));
    WantsMore(s.setup.request, |s.serverGot|, s.setup.serverMax);
    if Want(s.serverGot, s.setup.serverMax) == 0 {
      a := ServerDecides;
    } else if s.there != [] {
      a := ServerGet(1);
    } else {
      assert |s.serverGot| + |Unsent(s)| == |Encode(s.setup.request)|;
      a := SendPass(1);
    }
  }

  /** The client gets rid of what the server did not take, or is cut off. */
  lemma SenderMoves(s: State) returns (a: Action)
    requires Inv(s) && !s.server.Receiving? && s.client.Sending?
    requires Unread(s.setup.request, s.setup.serverMax) <= s.setup.cap || (s.setup.closes && s.server.Gone?)
    ensures Step(s, a).Some?
  {
    if s.client.rest == [] {
      a := SendDone;
    } else if s.setup.closes && s.server.Gone? {
      a := SendFails;
    } else {
      assert |s.serverGot| + |s.there| + |s.client.rest| == |Encode(s.setup.request)|;
      a := SendPut(1);
    }
  }

  /** A client that waits gets the reply, or the end of the stream. */
  lemma ReaderMoves(s: State) returns (a: Action)
    requires Inv(s) && !s.server.Receiving? && s.client.Awaiting? && (Reply(s.setup).Some? || s.setup.closes)
    ensures Step(s, a).Some?
  {
    if Want(s.clientGot, s.setup.clientMax) == 0 {
      a := ClientDecides;
    } else if s.back != [] {
      a := ClientGet(1);
    } else if s.setup.closes && s.server.Gone? {
      a := ClientSeesEnd;
    } else {
      var response := Reply(s.setup).value;
      Front(s.clientGot, s.back, Unreplied(s), Encode(response));
      WantsMore(response, |s.clientGot|, s.setup.clientMax);
      assert |s.clientGot| + |Unreplied(s)| == |Encode(response)|;
      a := if s.server.Replying? then ReplyPass(1) else ReplyDone;
    }
  }

  /** And the server gets rid of what the client does not take, or is cut off. */
  lemma ReplierMoves(s: State) returns (a: Action)
    requires Inv(s) && s.server.Replying? && ClientGone(s)
    requires Unread(Reply(s.setup).value, s.setup.clientMax) <= s.setup.cap || s.setup.closes
    ensures Step(s, a).Some?
  {
    if s.server.rest == [] {
      a := ReplyDone;
    } else if s.setup.closes {
      a := ReplyFails("closed");
    } else {
      assert |s.clientGot| + |s.back| + |s.server.rest| == |Encode(Reply(s.setup).value)|;
      a := ReplyPut(1);
    }
  }

  /** A reply that finds a place is written whoever reads it. */
  lemma SmallReplyMoves(s: State) returns (a: Action)
    requires Inv(s) && s.server.Replying? && s.client.Sending? && |Encode(Reply(s.setup).value)| <= s.setup.cap
    ensures Step(s, a).Some?
  {
    if s.server.rest == [] {
      a := ReplyDone;
    } else {
      assert |s.clientGot| + |s.back| + |s.server.rest| == |Encode(Reply(s.setup).value)|;
      a := ReplyPut(1);
    }
  }

  lemma Progress(s: State) returns (a: Action)
    requires Inv(s) && Completes(s.setup) && !BothReturned(s)
    ensures Step(s, a).Some?
  {
    if s.server.Receiving? {
      a := RequestMoves(s);
    } else if s.client.Awaiting? {
      a := ReaderMoves(s);
    } else if ClientGone(s) {
      a := ReplierMoves(s);
    } else if Unread(s.setup.request, s.setup.serverMax) <= s.setup.cap || (s.setup.closes && s.server.Gone?) {
      a := SenderMoves(s);
    } else {
      a := SmallReplyMoves(s);
    }
  }

  /** Where both have returned, everything found its place. */
  lemma ReturnedMeansCompletes(s: State)
    requires Inv(s) && BothReturned(s)
    ensures Completes(s.setup)
  {
    if !s.client.CutOff? {
      assert |s.serverGot| + |s.there| + |Unsent(s)| == |Encode(s.setup.request)|;
    }
    if Reply(s.setup).Some? && s.server == Gone(Served) {
      assert |s.clientGot| + |s.back| + |Unreplied(s)| == |Encode(Reply(s.setup).value)|;
    }
  }

  /** Some run goes on until nothing can move. */
  lemma RunToEnd(setup: Setup) returns (run: seq<Action>)
    ensures Exec(Step, Init(setup), run).Some? && Stuck(Exec(Step, Init(setup), run).value)
  {
    InitInv(setup);
    forall s: State, a: Action | Inv(s) && Step(s, a).Some?
      ensures Inv(Step(s, a).value) && Rank(Step(s, a).value) < Rank(s)
    {
      StepInv(s, a);
      StepLowersRank(s, a);
    }
    run := Reaches(Step, _ => true, s => Inv(s), Rank, s => Stuck(s), Init(setup));
  }

  /**
    Whatever the interleaving and the fragments, `Exchange` and `ServeOne` both
    return, if and only if `Completes`, which can be told from the sizes and the
    handler beforehand. The two calls have no deadline here.
  */
  lemma CompletesExactly(setup: Setup)
    ensures (forall run :: Exec(Step, Init(setup), run).Some? && Stuck(Exec(Step, Init(setup), run).value) ==>
               BothReturned(Exec(Step, Init(setup), run).value))
            <==> Completes(setup)
  {
    if Completes(setup) {
      forall run | Exec(Step, Init(setup), run).Some? && Stuck(Exec(Step, Init(setup), run).value)
        ensures BothReturned(Exec(Step, Init(setup), run).value)
      {
        EveryRun(setup, run);
        if !BothReturned(Exec(Step, Init(setup), run).value) {
          var a := Progress(Exec(Step, Init(setup), run).value);
          assert false;
        }
      }
    } else {
      var run := RunToEnd(setup);
      EveryRun(setup, run);
      if BothReturned(Exec(Step, Init(setup), run).value) {
        ReturnedMeansCompletes(Exec(Step, Init(setup), run).value);
      }
    }
  }

  /** And if it does not hold, they never do both, in any run. */
  lemma NeverBoth(setup: Setup, run: seq<Action>)
    requires !Completes(setup) && Exec(Step, Init(setup), run).Some?
    ensures !BothReturned(Exec(Step, Init(setup), run).value)
  {
    EveryRun(setup, run);
    if BothReturned(Exec(Step, Init(setup), run).value) {
      ReturnedMeansCompletes(Exec(Step, Init(setup), run).value);
    }
  }

  /**
    What the calls say, in every run. The client reads the reply of the handler,
    the refusal of a reply too large, or, without a reply, the end of the stream;
    or it cannot send, because the server is gone with a part of the request
    unread. The server says what belongs to the request; or it cannot reply,
    because the client is gone with a part of the reply unread.
  */
  lemma AnswersAreRight(setup: Setup, run: seq<Action>)
    requires Exec(Step, Init(setup), run).Some?
    ensures var s := Exec(Step, Init(setup), run).value;
            && (s.client.Done? ==> s.client.result == ClientAnswer(setup))
            && (s.client.CutOff? ==> setup.closes && s.server.Gone? && Unread(setup.request, setup.serverMax) > 0)
            && (s.server.Gone? ==>
                  || s.server.result == ServerAnswer(setup)
                  || (s.server.result.ServeWrite? && Reply(setup).Some? && setup.closes && s.client.Done? &&
                      Unread(Reply(setup).value, setup.clientMax) > 0))
  {
    EveryRun(setup, run);
  }

  /**
    A request and a reply that fit: on any connection, in any interleaving, closing
    or not, both calls return, the server content and the client with exactly the
    handler's response.
  */
  lemma FittingExchange(setup: Setup, run: seq<Action>)
    requires Exec(Step, Init(setup), run).Some? && Stuck(Exec(Step, Init(setup), run).value)
    requires Fits(setup.request, setup.serverMax) && setup.handler(setup.request).Responded?
    requires Fits(setup.handler(setup.request).response, setup.clientMax)
    ensures var s := Exec(Step, Init(setup), run).value;
            s.client == Done(Payload(setup.handler(setup.request).response)) && s.server == Gone(Served)
  {
    CompletesExactly(setup);
    AnswersAreRight(setup, run);
  }
}
