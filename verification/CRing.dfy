/** The C version: name lists as arrays, the helper loops over them, and the handlers, which elect as
    the Rust version does. */
module CRing {
  import opened Common
  import opened RingLinks
  import opened RingTokens

  method PushName(names: array<Addr>, name: Addr) returns (longer: array<Addr>)
    ensures fresh(longer)
    ensures longer[..] == names[..] + [name]
  {
    longer := new Addr[names.Length + 1];
    var i := 0;
    while i < names.Length
      invariant 0 <= i <= names.Length
      invariant longer[..i] == names[..i]
    {
      longer[i] := names[i];
      i := i + 1;
    }
    longer[names.Length] := name;
  }

  method IncludesName(names: array<Addr>, me: Addr) returns (found: bool)
    ensures found <==> me in names[..]
  {
    var i := 0;
    while i < names.Length
      invariant 0 <= i <= names.Length
      invariant me !in names[..i]
    {
      if names[i] == me {
        return true;
      }
      i := i + 1;
    }
    return false;
  }

  method CheckAmICoordinator(names: array<Addr>, me: Addr) returns (least: bool)
    ensures least <==> forall x | x in names[..] :: me <= x
  {
    var i := 0;
    while i < names.Length
      invariant 0 <= i <= names.Length
      invariant forall j | 0 <= j < i :: me <= names[j]
    {
      if me > names[i] {
        assert names[i] in names[..];
        return false;
      }
      i := i + 1;
    }
    return true;
  }

  class Node {
    const me: Addr
    var prev: Addr
    var next: Addr
    var amCoordinator: bool
    var coordinatorCalled: bool

    constructor (me: Addr)
      ensures this.me == prev == next == me && !amCoordinator && !coordinatorCalled
    {
      this.me, prev, next := me, me, me;
      amCoordinator, coordinatorCalled := false, false;
    }

    ghost function Arrived(msg: Message): Token {
      Token(me, msg, 0, 0, 0)
    }

    ghost function Forward(msg: Message): Message
      requires !Finished(Arrived(msg))
      reads this
    {
      Passed(C, map[me := Link(prev, next)], Arrived(msg)).msg
    }

    /** Closing an election, the server sends the coordinate message; it decides for itself later. */
    method OnElection(list: array<Addr>) returns (closed: bool, forward: array<Addr>)
      ensures closed == Closes(Arrived(Election(list[..])))
      ensures Forward(Election(list[..])) == if closed then Coordinate(list[..], forward[..]) else Election(forward[..])
    {
      closed := IncludesName(list, me);
      if closed {
        var none := new Addr[0];
        forward := PushName(none, me);
      } else {
        forward := PushName(list, me);
      }
    }

    method Decide(list: array<Addr>)
      modifies this`amCoordinator
      ensures amCoordinator == IsLeast(list[..], me)
    {
      amCoordinator := CheckAmICoordinator(list, me);
      LeastMeans(list[..], me);
    }

    method OnCoordinate(ring: array<Addr>, read: array<Addr>) returns (over: bool, forward: array<Addr>)
      modifies this`amCoordinator
      ensures Forward(Coordinate(ring[..], read[..]))
           == if over then Elected(ring[..]) else Coordinate(ring[..], forward[..])
      ensures amCoordinator == Flag(C, Arrived(Coordinate(ring[..], read[..])), old(amCoordinator))
    {
      amCoordinator := CheckAmICoordinator(ring, me);
      LeastMeans(ring[..], me);
      over := IncludesName(read, me);
      if over {
        forward := read;
      } else {
        forward := PushName(read, me);
      }
    }

    method OnList(list: array<Addr>) returns (over: bool, forward: array<Addr>)
      modifies this`coordinatorCalled
      ensures coordinatorCalled
      ensures Forward(Listing(list[..])) == if over then Listed(list[..]) else Listing(forward[..])
    {
      coordinatorCalled := true;
      over := IncludesName(list, me);
      if over {
        forward := list;
      } else {
        forward := PushName(list, me);
      }
    }
  }

  /** On one ring, an election of the C version and one of the Rust version elect the same server with
      the same number of deliveries. */
  lemma VersionsAgree(
      r: seq<Addr>,
      s: State, steps: seq<Step>, end: State, t: Token,
      s': State, steps': seq<Step>, end': State, t': Token)
    requires Reached(C, s, r, steps, end) && t in end.tokens && t.msg.Elected?
    requires Reached(Rust, s', r, steps', end') && t' in end'.tokens && t'.msg.Elected?
    ensures forall x | x in r ::
      x in end.coordinator && x in end'.coordinator && end.coordinator[x] == end'.coordinator[x]
    ensures t.elections == t'.elections && t.coordinates == t'.coordinates
  {
    Agreement(C, s, r, steps, end, t);
    Agreement(Rust, s', r, steps', end', t');
    WalkCosts(C, s, r, steps, end, t);
    WalkCosts(Rust, s', r, steps', end', t');
    hide Reached;
  }
}
