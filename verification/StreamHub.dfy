/** The subscriber hub: every subscriber is sent one handshake and then every frame
    broadcast since, or is closed. A client's writer and its peer act on their own;
    Drift stands for whatever they did since the capture loop last touched the client. */
module StreamHub {
  import opened Prelude

  const CLIENT_BUFFER := 1024
  const JOINING := 16

  type Frame = seq<byte>

  class Client {
    var frames: seq<Frame>
    var closing: bool
    ghost var written: seq<Frame>

    constructor ()
      ensures frames == [] && written == [] && !closing
    {
      frames, written, closing := [], [], false;
    }

    /** Everything handed to this client, in order: what its writer took and what waits. */
    ghost function Sent(): seq<Frame>
      reads this
    {
      written + frames
    }

    /** Puts a frame in the queue, if the client is open and the queue has room. */
    method Offer(frame: Frame) returns (ok: bool)
      requires |frames| <= CLIENT_BUFFER
      modifies this`frames
      ensures ok == (!closing && |old(frames)| < 1024) && |frames| <= CLIENT_BUFFER
      ensures Sent() == if ok then old(Sent()) + [frame] else old(Sent())
    {
      if closing { return false; }
      if |frames| >= CLIENT_BUFFER { return false; }
      frames := frames + [frame];
      assert written + frames == (written + old(frames)) + [frame];
      ok := true;
    }

    method Close()
      modifies this`closing
      ensures closing
    {
      closing := true;
    }

    /** The writer takes one frame and writes it; a failed write closes the client. */
    method WriteOne(failed: bool)
      requires frames != [] && !closing
      modifies this
      ensures Sent() == old(Sent()) && frames == old(frames)[1..] && closing == failed
    {
      written := written + [frames[0]];
      frames := frames[1..];
      assert written + frames == old(written) + old(frames);
      if failed { Close(); }
    }

    /** Any number of writes, and perhaps the end of the connection. */
    method Drift()
      modifies this
      ensures Sent() == old(Sent()) && |frames| <= |old(frames)| && (old(closing) ==> closing)
    {
      var n: nat := *;
      while n > 0 && frames != [] && !closing
        invariant Sent() == old(Sent()) && |frames| <= |old(frames)| && (old(closing) ==> closing)
        decreases n
      {
        var failed: bool := *;
        WriteOne(failed);
        n := n - 1;
      }
      if * { Close(); }
    }
  }

  /** What a subscriber was greeted with, and how many frames had gone out before. */
  datatype Greeting = Greeting(handshake: Frame, since: nat)

  function Members(all: seq<Client>): set<Client> { set c | c in all }

  /** The first `n` clients that were joining are adopted. */
  ghost predicate Taken(all: seq<Client>, pending: seq<Client>, clients: set<Client>, n: nat,
                        joining: seq<Client>, nextPending: seq<Client>, nextClients: set<Client>) {
    n <= |all| && joining == all[n..] && nextPending == pending + all[..n] && nextClients == clients + Members(all[..n])
  }

  lemma NoneTaken(all: seq<Client>, pending: seq<Client>, clients: set<Client>)
    ensures Taken(all, pending, clients, 0, all, pending, clients)
  {
  }

  lemma OneTaken(all: seq<Client>, pending: seq<Client>, clients: set<Client>, n: nat,
                 joining: seq<Client>, nextPending: seq<Client>, nextClients: set<Client>)
    requires Taken(all, pending, clients, n, joining, nextPending, nextClients) && joining != []
    ensures Taken(all, pending, clients, n + 1, joining[1..], nextPending + [joining[0]], nextClients + {joining[0]})
  {
    assert all[..n + 1] == all[..n] + [joining[0]];
  }

  /** Every frame could be encoded. */
  predicate Encoded(frames: seq<Option<Frame>>) { forall i :: 0 <= i < |frames| ==> frames[i].Some? }

  function Values(frames: seq<Option<Frame>>): (r: seq<Frame>)
    requires Encoded(frames)
    ensures |r| == |frames|
  {
    seq(|frames|, i requires 0 <= i < |frames| => frames[i].value)
  }

  /** The log grew by all of these frames, unless nobody was left to hear them. */
  ghost predicate WentOut(before: seq<Frame>, log: seq<Frame>, frames: seq<Option<Frame>>, heard: bool) {
    before <= log && (heard ==> Encoded(frames) && log == before + Values(frames))
  }

  lemma NoValues(frames: seq<Option<Frame>>, log: seq<Frame>)
    ensures WentOut(log, log, frames[..0], true)
  {
    assert log + Values(frames[..0]) == log;
  }

  lemma MoreWentOut(before: seq<Frame>, log: seq<Frame>, frames: seq<Option<Frame>>, i: nat)
    requires i < |frames| && frames[i].Some? && WentOut(before, log, frames[..i], true)
    ensures WentOut(before, log + [frames[i].value], frames[..i + 1], true)
  {
    ValuesMore(frames, i);
    assert before + (Values(frames[..i]) + [frames[i].value]) == (before + Values(frames[..i])) + [frames[i].value];
  }

  lemma ValuesMore(frames: seq<Option<Frame>>, i: nat)
    requires i < |frames| && frames[i].Some?
    ensures Encoded(frames[..i]) ==>
              Encoded(frames[..i + 1]) && Values(frames[..i + 1]) == Values(frames[..i]) + [frames[i].value]
  {
  }

  /** A frame is owed to everyone greeted before it. */
  lemma OwedGrows(g: Greeting, log: seq<Frame>, frame: Frame, sent: seq<Frame>)
    requires g.since <= |log| && sent <= [g.handshake] + log[g.since..]
    ensures [g.handshake] + (log + [frame])[g.since..] == ([g.handshake] + log[g.since..]) + [frame]
    ensures sent <= [g.handshake] + (log + [frame])[g.since..]
  {
    assert (log + [frame])[g.since..] == log[g.since..] + [frame];
  }

  class Hub {
    var joining: seq<Client>
    var clients: set<Client>
    var pending: seq<Client>
    ghost var log: seq<Frame>
    ghost var greeted: map<Client, Greeting>

    /** All a greeted subscriber is owed by now. */
    ghost function Owed(c: Client): seq<Frame>
      requires c in greeted && greeted[c].since <= |log|
      reads this
    {
      [greeted[c].handshake] + log[greeted[c].since..]
    }

    /** A greeted client was sent a beginning of what it is owed, and all of it while
        it is subscribed. */
    ghost predicate Honest(c: Client)
      requires c in greeted
      reads this, c
    {
      && greeted[c].since <= |log| && c.Sent() <= Owed(c) && (c in clients ==> c.Sent() == Owed(c))
    }

    ghost predicate Bounded()
      reads this, clients
    {
      forall c :: c in clients ==> |c.frames| <= CLIENT_BUFFER
    }

    /** Clients that have not been greeted were sent nothing. */
    ghost predicate Silent()
      reads this, clients, joining
    {
      && (forall c :: c in clients && c !in greeted ==> c.Sent() == [])
      && (forall c :: c in joining ==> c.Sent() == [] && c.frames == [] && c !in clients && c !in greeted)
    }

    ghost predicate Sound()
      reads this, clients, joining, greeted.Keys
    {
      && Bounded() && Silent() && (forall c :: c in greeted ==> Honest(c))
      && |joining| <= JOINING && (forall i, j :: 0 <= i < j < |joining| ==> joining[i] != joining[j])
    }

    /** Between ticks every ungreeted subscriber is pending, and none twice. */
    ghost predicate Valid()
      reads this, clients, joining, greeted.Keys
    {
      && Sound() && (forall c :: c in clients && c !in greeted ==> c in pending)
      && (forall c :: c in pending ==> c in clients && c !in greeted)
      && (forall i, j :: 0 <= i < j < |pending| ==> pending[i] != pending[j])
    }

    constructor ()
      ensures Valid() && clients == {} && joining == [] && log == [] && greeted == map[]
    {
      joining, clients, pending, log, greeted := [], {}, [], [], map[];
    }

    // ----- Joining -----

    /** The accepting goroutine: a new client waits to be adopted, or is refused. */
    method Accept() returns (client: Client)
      requires Valid()
      modifies this`joining
      ensures Valid() && fresh(client)
      ensures if |old(joining)| < 16 then joining == old(joining) + [client]
              else joining == old(joining) && client.closing
    {
      client := new Client();
      if |joining| < JOINING {
        joining := joining + [client];
      } else {
        client.Close();
      }
    }

    /** Makes subscribers of all who joined; each waits for its handshake. */
    method Adopt()
      requires Valid()
      modifies this`joining, this`clients, this`pending
      ensures Valid() && joining == [] && pending == old(pending) + old(joining)
      ensures clients == old(clients) + Members(old(joining))
    {
      ghost var n := 0;
      NoneTaken(joining, pending, clients);
      while |joining| > 0
        invariant Valid() && n <= |old(joining)|
        invariant Taken(old(joining), old(pending), old(clients), n, joining, pending, clients)
        decreases |joining|
      {
        OneTaken(old(joining), old(pending), old(clients), n, joining, pending, clients);
        AdoptOne();
        n := n + 1;
      }
    }

    method AdoptOne()
      requires Valid() && |joining| > 0
      modifies this`joining, this`clients, this`pending
      ensures Valid() && joining == old(joining)[1..] && pending == old(pending) + [old(joining)[0]]
      ensures clients == old(clients) + {old(joining)[0]}
    {
      var client := joining[0];
      assert client in joining;
      assert forall c :: c in joining[1..] ==> c in joining && c != client;
      joining := joining[1..];
      clients := clients + {client};
      pending := pending + [client];
    }

    // ----- Sending -----

    /** Empties the pending list into those on it that are still subscribed. */
    method TakePending() returns (waiting: seq<Client>)
      requires Valid()
      modifies this`pending
      ensures pending == [] && Sound() && waiting == old(pending)
    {
      waiting := [];
      for i := 0 to |pending|
        invariant pending == old(pending) && waiting == pending[..i]
      {
        assert pending[..i + 1] == pending[..i] + [pending[i]];
        assert pending[i] in pending;
        if pending[i] in clients { waiting := waiting + [pending[i]]; }
      }
      pending := [];
    }

    /** Hands one handshake to every client that waits for it. Without one the clients
        stay as they are, and the run ends. */
    method Greet(handshake: Option<Frame>) returns (ok: bool)
      requires Valid()
      modifies this`clients, this`pending, this`greeted, clients
      ensures Sound() && pending == [] && clients <= old(clients)
      ensures ok == (old(pending) == [] || handshake.Some?) && (ok ==> forall c :: c in clients ==> c in greeted)
      ensures forall c :: c in old(clients) && c !in clients ==> c.closing
    {
      var waiting := TakePending();
      if |waiting| == 0 { return true; }
      if handshake.None? { return false; }
      GreetAll(waiting, handshake.value);
      ok := true;
    }

    method GreetAll(waiting: seq<Client>, handshake: Frame)
      requires Sound() && (forall c :: c in waiting ==> c in clients && c !in greeted)
      requires forall c :: c in clients && c !in greeted ==> c in waiting
      requires forall i, j :: 0 <= i < j < |waiting| ==> waiting[i] != waiting[j]
      modifies this`clients, this`greeted, clients
      ensures Sound() && clients <= old(clients) && forall c :: c in clients ==> c in greeted
      ensures forall c :: c in old(clients) && c !in clients ==> c.closing
    {
      for i := 0 to |waiting|
        invariant Sound() && clients <= old(clients)
        invariant forall c :: c in clients && c !in greeted <==> c in waiting[i..]
        invariant forall c :: c in old(clients) && c !in clients ==> c.closing
      {
        assert waiting[i] in waiting[i..];
        assert waiting[i..] == [waiting[i]] + waiting[i + 1..];
        GreetOne(waiting[i], handshake);
      }
    }

    method GreetOne(client: Client, handshake: Frame)
      requires Sound() && client in clients && client !in greeted
      modifies client, this`clients, this`greeted
      ensures Sound() && (clients == old(clients) || clients == old(clients) - {client})
      ensures greeted == old(greeted)[client := Greeting(handshake, |log|)]
      ensures client !in clients ==> client.closing
    {
      SendOne(client, handshake);
      greeted := greeted[client := Greeting(handshake, |log|)];
    }

    method Drop(client: Client)
      modifies client`closing, this`clients
      ensures clients == old(clients) - {client} && client.closing
    {
      client.Close();
      clients := clients - {client};
    }

    /** Offers a frame to all subscribers and removes those that refuse it. */
    method Broadcast(frame: Frame)
      requires Sound() && forall c :: c in clients ==> c in greeted
      modifies this`clients, this`log, clients
      ensures Sound() && log == old(log) + [frame] && clients <= old(clients)
      ensures forall c :: c in clients ==> c.Sent() == old(c.Sent()) + [frame]
      ensures forall c :: c in old(clients) && c !in clients ==> c.closing && c.Sent() == old(c.Sent())
    {
      SendAll(frame);
      log := log + [frame];
      forall c | c in greeted ensures Honest(c) {
        assert old(Honest(c));
        OwedGrows(greeted[c], old(log), frame, old(c.Sent()));
        if c in clients {
          assert c.Sent() == Owed(c);
        } else {
          assert c.Sent() == old(c.Sent());
        }
      }
      forall c | c in joining ensures c.Sent() == [] && c.frames == [] && c !in clients && c !in greeted {
        assert c !in old(clients);
      }
    }

    method SendAll(frame: Frame)
      requires Bounded()
      modifies this`clients, clients
      ensures Bounded() && clients <= old(clients)
      ensures forall c :: c in clients ==> c.Sent() == old(c.Sent()) + [frame]
      ensures forall c :: c in old(clients) && c !in clients ==> c.closing && c.Sent() == old(c.Sent())
    {
      var todo := clients;
      while todo != {}
        invariant todo <= clients <= old(clients) && Bounded()
        invariant forall c :: c in todo ==> c.Sent() == old(c.Sent())
        invariant forall c :: c in clients && c !in todo ==> c.Sent() == old(c.Sent()) + [frame]
        invariant forall c :: c in old(clients) && c !in clients ==> c.closing && c.Sent() == old(c.Sent())
        decreases |todo|
      {
        ghost var some := Member(todo);
        var client :| client in todo;
        SendOne(client, frame);
        todo := todo - {client};
      }
    }

    method BroadcastAll(frames: seq<Option<Frame>>) returns (ok: bool)
      requires Sound() && forall c :: c in clients ==> c in greeted
      modifies this`clients, this`log, clients
      ensures Sound() && old(log) <= log && clients <= old(clients)
      ensures ok && clients != {} ==> Encoded(frames) && log == old(log) + Values(frames)
      ensures forall c :: c in old(clients) && c !in clients ==> c.closing
    {
      NoValues(frames, log);
      for i := 0 to |frames|
        invariant Sound() && clients <= old(clients) && WentOut(old(log), log, frames[..i], clients != {})
        invariant forall c :: c in old(clients) && c !in clients ==> c.closing
      {
        if clients != {} {
          if frames[i].None? { return false; }
          MoreWentOut(old(log), log, frames, i);
          Broadcast(frames[i].value);
        }
      }
      assert frames[..|frames|] == frames;
      ok := true;
    }

    /** Offers one frame to one client, whatever its writer did meanwhile. */
    method SendOne(client: Client, frame: Frame)
      requires client in clients && |client.frames| <= CLIENT_BUFFER
      modifies client, this`clients
      ensures |client.frames| <= CLIENT_BUFFER
      ensures clients == old(clients) || clients == old(clients) - {client}
      ensures client.Sent() == if client in clients then old(client.Sent()) + [frame] else old(client.Sent())
      ensures client !in clients ==> client.closing
    {
      client.Drift();
      var ok := client.Offer(frame);
      if !ok { Drop(client); }
    }

    // ----- Ticks -----

    /** Disconnects everyone. */
    method CloseAll()
      requires Sound()
      modifies this`joining, this`clients, this`pending, clients, joining
      ensures Valid() && clients == {} && joining == [] && pending == []
      ensures forall c :: c in old(clients) || c in old(joining) ==> c.closing
    {
      RefuseAll();
      CloseClients();
      clients := {};
      pending := [];
    }

    method RefuseAll()
      requires Sound()
      modifies this`joining, joining
      ensures Sound() && joining == [] && forall c :: c in old(joining) ==> c.closing
    {
      while |joining| > 0
        invariant Sound() && forall c :: c in old(joining) ==> c in joining || c.closing
        invariant forall c :: c in joining ==> c in old(joining)
        decreases |joining|
      {
        var client := joining[0];
        assert client in joining;
        RefuseOne(client);
      }
    }

    method RefuseOne(client: Client)
      requires Sound() && |joining| > 0 && client == joining[0]
      modifies this`joining, client`closing
      ensures Sound() && joining == old(joining)[1..] && client.closing
    {
      assert joining[0] in joining;
      client.Close();
      assert forall c :: c in joining[1..] ==> c in joining;
      joining := joining[1..];
    }

    method CloseClients()
      modifies clients`closing
      ensures forall c :: c in clients ==> c.closing
    {
      var todo := clients;
      while todo != {}
        invariant todo <= clients && forall c :: c in clients && c !in todo ==> c.closing
        decreases |todo|
      {
        ghost var some := Member(todo);
        var client :| client in todo;
        client.Close();
        todo := todo - {client};
      }
    }

    /** One tick of the capture loop: adopt, greet, then broadcast. `handshake` and each
        of `frames` are absent when encoding fails, which ends the run and closes all. */
    method Tick(handshake: Option<Frame>, frames: seq<Option<Frame>>) returns (ok: bool)
      requires Valid()
      modifies this, clients, joining
      ensures Valid() && old(log) <= log
      ensures if ok then forall c :: c in clients ==> c in greeted else clients == {} && joining == []
      ensures ok && clients != {} ==> Encoded(frames) && log == old(log) + Values(frames)
      ensures forall c :: (c in old(clients) || c in old(joining)) && c !in clients ==> c.closing
    {
      Adopt();
      ok := true;
      if clients != {} {
        ok := Greet(handshake);
        if ok { ok := BroadcastAll(frames); }
        if !ok { CloseAll(); }
      }
    }

    /** What a client's writer and peer do between ticks changes none of this. */
    method Meanwhile(client: Client)
      requires Valid() && (client in clients || client in joining || client in greeted)
      modifies client
      ensures Valid() && client.Sent() == old(client.Sent())
    {
      client.Drift();
      assert forall c :: c in greeted ==> old(Honest(c)) && c.Sent() == old(c.Sent());
    }

    /** Everything sent so far, of every subscriber ever greeted: its handshake and the
        frames broadcast since without a gap, up to now while it is subscribed and up
        to its closing otherwise. Nobody was sent a frame before a handshake. */
    lemma NoGaps(c: Client)
      requires Valid() && (c in greeted || c in clients)
      ensures c in greeted ==>
                c.Sent() <= Owed(c) && (c in clients ==> c.Sent() == Owed(c) && |c.frames| <= CLIENT_BUFFER)
      ensures c !in greeted ==> c.Sent() == []
      ensures c in greeted && c.Sent() != [] ==> c.Sent()[0] == greeted[c].handshake
    {
      if c in greeted { assert Honest(c); }
    }
  }
}
