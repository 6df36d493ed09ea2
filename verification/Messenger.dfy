/** src/messenger.cc: which messages the liveness vector lets through, who a broadcast
    reaches, and the ids messages are given. */
module Messenger {
  import opened Messages

  /** Position of `other` in the liveness vector of `rank`, which has no slot for `rank`. */
  function IdToIndex(rank: int, other: int): int {
    if other < rank then other else other - 1
  }

  function IndexToId(rank: int, index: int): int {
    if index < rank then index else index + 1
  }

  /** The two numberings are inverse bijections between the n - 1 slots and the n - 1 other nodes. */
  lemma IndexBijection(n: int, rank: int)
    requires 0 <= rank < n
    ensures forall x {:trigger IdToIndex(rank, x)} :: 0 <= x < n && x != rank ==>
      0 <= IdToIndex(rank, x) < n - 1 && IndexToId(rank, IdToIndex(rank, x)) == x
    ensures forall i {:trigger IndexToId(rank, i)} :: 0 <= i < n - 1 ==>
      0 <= IndexToId(rank, i) < n && IndexToId(rank, i) != rank && IdToIndex(rank, IndexToId(rank, i)) == i
  {
  }

  /** What a liveness vector says: the other nodes whose slot is set. */
  function LiveView(rank: int, isAlive: seq<bool>): (view: set<int>) {
    set x | 0 <= x <= |isAlive| && x != rank &&
            0 <= IdToIndex(rank, x) < |isAlive| && isAlive[IdToIndex(rank, x)]
  }

  /** Setting one slot adds or removes exactly the node that slot stands for. */
  lemma SlotUpdate(rank: int, isAlive: seq<bool>, index: int, status: bool)
    requires 0 <= rank <= |isAlive|
    requires 0 <= index < |isAlive|
    ensures LiveView(rank, isAlive[index := status]) ==
            if status then LiveView(rank, isAlive) + {IndexToId(rank, index)}
            else LiveView(rank, isAlive) - {IndexToId(rank, index)}
  {
    IndexBijection(|isAlive| + 1, rank);
    var node := IndexToId(rank, index);
    var before, after := LiveView(rank, isAlive), LiveView(rank, isAlive[index := status]);
    forall x: int
      ensures x in after <==> if x == node then status else x in before
    {
      if 0 <= x <= |isAlive| && x != rank {
        assert IdToIndex(rank, x) == index <==> x == node;
      }
    }
  }

  /** One call of setNodeStatus. */
  datatype Status = Status(index: int, isAlive: bool)

  /** The vector after a history of setNodeStatus calls. */
  function Statuses(size: nat, history: seq<Status>): (isAlive: seq<bool>)
    requires forall h :: h in history ==> 0 <= h.index < size
    ensures |isAlive| == size
  {
    if history == [] then seq(size, _ => true)
    else
      var last := history[|history| - 1];
      Statuses(size, history[..|history| - 1])[last.index := last.isAlive]
  }

  /** The status last set for node x, true when there is none. */
  function LastStatus(rank: int, history: seq<Status>, x: int): bool {
    if history == [] then true
    else
      var last := history[|history| - 1];
      if IndexToId(rank, last.index) == x then last.isAlive else LastStatus(rank, history[..|history| - 1], x)
  }

  /** The view holds exactly the other nodes whose last status was true. */
  lemma {:induction false} ViewIsLastStatus(n: nat, rank: int, history: seq<Status>, x: int)
    requires 0 <= rank < n && 0 <= x < n && x != rank
    requires forall h :: h in history ==> 0 <= h.index < n - 1
    ensures x in LiveView(rank, Statuses(n - 1, history)) <==> LastStatus(rank, history, x)
  {
    IndexBijection(n, rank);
    if history != [] {
      var last := history[|history| - 1];
      ViewIsLastStatus(n, rank, history[..|history| - 1], x);
      SlotUpdate(rank, Statuses(n - 1, history[..|history| - 1]), last.index, last.isAlive);
    }
  }

  /** messageShouldDrop. */
  predicate ShouldDrop(isAlive: seq<bool>, rank: int, other: int, connection: Connection, tag: Tag)
    requires 0 <= rank <= |isAlive|
    requires connection.World? ==> 0 <= other <= |isAlive|
  {
    !(other == rank || connection != World ||
      isAlive[IdToIndex(rank, other)] || tag == FailureDetection)
  }

  /** On the cluster's communicator exactly the non-failure traffic with a node outside the
      view is filtered; a client connection is never filtered. */
  lemma DropsExactlyTheSuspected(isAlive: seq<bool>, rank: int, other: int, connection: Connection, tag: Tag)
    requires 0 <= rank <= |isAlive|
    requires connection.World? ==> 0 <= other <= |isAlive|
    ensures ShouldDrop(isAlive, rank, other, connection, tag) <==>
            connection == World && tag != FailureDetection && other != rank && other !in LiveView(rank, isAlive)
  {
    IndexBijection(|isAlive| + 1, rank);
  }

  /** A message of the cluster is filtered exactly when it is not about failures and the last status set for the node at
      the other end was false. */
  lemma FilteredIffLastStatusFalse(n: nat, rank: int, history: seq<Status>, other: int, tag: Tag)
    requires 0 <= rank < n && 0 <= other < n
    requires forall h :: h in history ==> 0 <= h.index < n - 1
    ensures ShouldDrop(Statuses(n - 1, history), rank, other, World, tag) <==>
            tag != FailureDetection && other != rank && !LastStatus(rank, history, other)
  {
    DropsExactlyTheSuspected(Statuses(n - 1, history), rank, other, World, tag);
    if other != rank {
      ViewIsLastStatus(n, rank, history, other);
    }
  }

  /** The nodes of lo..hi a broadcast hands the message to, in order. */
  function Recipients(view: set<int>, rank: int, tag: Tag, lo: int, hi: int, includeSelf: bool): (to: seq<int>)
    decreases hi - lo
  {
    if hi <= lo then []
    else
      var node := hi - 1;
      var reached := if node == rank then includeSelf else node in view || tag == FailureDetection;
      Recipients(view, rank, tag, lo, node, includeSelf) + if reached then [node] else []
  }

  /** A broadcast reaches each node of its range at most once, in increasing order, and leaves out
      the sender (unless asked for) and, unless the tag is FAILURE_DETECTION, the nodes outside the view. */
  lemma {:induction false} RecipientsExact(view: set<int>, rank: int, tag: Tag, lo: int, hi: int, includeSelf: bool)
    ensures forall x :: x in Recipients(view, rank, tag, lo, hi, includeSelf) <==>
              lo <= x < hi && if x == rank then includeSelf else x in view || tag == FailureDetection
    ensures Increasing(Recipients(view, rank, tag, lo, hi, includeSelf))
    decreases hi - lo
  {
    if lo < hi {
      RecipientsExact(view, rank, tag, lo, hi - 1, includeSelf);
      var before := Recipients(view, rank, tag, lo, hi - 1, includeSelf);
      forall i | 0 <= i < |before| ensures before[i] < hi - 1 {
        assert before[i] in before;
      }
    }
  }

  ghost predicate Increasing(to: seq<int>) {
    forall i, j :: 0 <= i < j < |to| ==> to[i] < to[j]
  }

  /** What MPI_Send is handed. */
  datatype Envelope = Envelope(dst: int, message: Message, connection: Connection)

  function Envelopes(to: seq<int>, message: Message): (mail: seq<Envelope>)
    ensures |mail| == |to|
  {
    seq(|to|, i requires 0 <= i < |to| => Envelope(to[i], message, World))
  }

  /** A broadcast to everybody else. */
  function ToOthers(view: set<int>, rank: int, n: int, message: Message): seq<Envelope> {
    Envelopes(Recipients(view, rank, message.Tag(), 0, n, false), message)
  }

  /** `message` goes to each of `to` once, in increasing order, and to nobody else. */
  ghost predicate IsBroadcast(mail: seq<Envelope>, message: Message, to: set<int>) {
    && (forall i :: 0 <= i < |mail| ==> mail[i] == Envelope(mail[i].dst, message, World) && mail[i].dst in to)
    && (forall x :: x in to ==> exists i :: 0 <= i < |mail| && mail[i].dst == x)
    && (forall i, j :: 0 <= i < j < |mail| ==> mail[i].dst < mail[j].dst)
  }

  /** Whom a message that failures can filter is for: the other nodes of lo..hi that are not suspected. */
  function Unsuspected(view: set<int>, rank: int, lo: int, hi: int): set<int> {
    set x | x in view && lo <= x < hi && x != rank
  }

  lemma BroadcastExact(view: set<int>, rank: int, message: Message, lo: int, hi: int)
    requires message.Tag() != FailureDetection
    ensures IsBroadcast(Envelopes(Recipients(view, rank, message.Tag(), lo, hi, false), message), message,
                        Unsuspected(view, rank, lo, hi))
  {
    var to := Recipients(view, rank, message.Tag(), lo, hi, false);
    RecipientsExact(view, rank, message.Tag(), lo, hi, false);
    assert forall i :: 0 <= i < |to| ==> to[i] in to;
    forall x | x in Unsuspected(view, rank, lo, hi)
      ensures exists i :: 0 <= i < |to| && Envelopes(to, message)[i].dst == x
    {
      assert x in to;
      var i :| 0 <= i < |to| && to[i] == x;
      assert Envelopes(to, message)[i].dst == x;
    }
  }

  /** A message as it reaches a receiver; `isValid` is false when it could not be parsed. */
  datatype Incoming = Incoming(src: int, message: Message, isValid: bool)

  class Messenger {
    const rank: int
    const clusterSize: int
    var processIsAlive: seq<bool>
    /** Everything handed to MPI_Send so far. */
    var sent: seq<Envelope>
    /** The content of the file publishPort writes. */
    var publishedPort: Option<string>
    /** Every call of setNodeStatus so far. */
    ghost var history: seq<Status>

    ghost predicate Valid()
      reads this`processIsAlive, this`history
    {
      && 0 <= rank < clusterSize
      && (forall h :: h in history ==> 0 <= h.index < clusterSize - 1)
      && processIsAlive == Statuses(clusterSize - 1, history)
    }

    function View(): set<int>
      reads this`processIsAlive
    {
      LiveView(rank, processIsAlive)
    }

    /** Traffic the liveness vector keeps out. */
    predicate Filtered(other: int, connection: Connection, tag: Tag)
      reads this`processIsAlive
    {
      connection == World && tag != FailureDetection && other != rank && other !in View()
    }

    /** start: nobody is suspected. */
    constructor Start(rank: int, clusterSize: int)
      requires 0 <= rank < clusterSize
      ensures Valid() && this.rank == rank && this.clusterSize == clusterSize && sent == []
      ensures forall x :: x in View() <==> 0 <= x < clusterSize && x != rank
    {
      this.rank, this.clusterSize := rank, clusterSize;
      processIsAlive := seq(clusterSize - 1, _ => true);
      sent, publishedPort, history := [], None, [];
    }

    method Send(dst: int, message: Message, connection: Connection)
      requires Valid()
      requires connection.World? ==> 0 <= dst < clusterSize
      modifies this`sent
      ensures sent == old(sent) +
              if Filtered(dst, connection, message.Tag()) then [] else [Envelope(dst, message, connection)]
    {
      DropsExactlyTheSuspected(processIsAlive, rank, dst, connection, message.Tag());
      var shouldDrop := ShouldDrop(processIsAlive, rank, dst, connection, message.Tag());
      if !shouldDrop {
        sent := sent + [Envelope(dst, message, connection)];
      }
    }

    method Broadcast(message: Message, start: int, end: int, includeSelf: bool)
      requires Valid()
      requires 0 <= start && -1 <= end <= clusterSize
      modifies this`sent
      ensures sent == old(sent) +
              Envelopes(Recipients(View(), rank, message.Tag(), start, if end == -1 then clusterSize else end,
                                   includeSelf), message)
    {
      var iend := if end == -1 then clusterSize else end;
      var i := start;
      while i < iend
        invariant i <= iend || i == start
        invariant sent == old(sent) +
                  Envelopes(Recipients(View(), rank, message.Tag(), start, i, includeSelf), message)
      {
        if i != rank || includeSelf {
          Send(i, message, World);
        }
        i := i + 1;
      }
    }

    /** receiveWithTagBlock on what arrives: the messages before the one returned were all readable
        and all filtered; when there is none (`taken == |inbox|`) the receiver is still blocked. */
    method ReceiveWithTagBlock(tag: Tag, inbox: seq<Incoming>, connection: Connection) returns (taken: nat)
      requires Valid()
      requires connection.World? ==> forall i :: 0 <= i < |inbox| ==> 0 <= inbox[i].src < clusterSize
      ensures taken <= |inbox|
      ensures forall i :: 0 <= i < taken ==> inbox[i].isValid && Filtered(inbox[i].src, connection, tag)
      ensures taken < |inbox| ==> !inbox[taken].isValid || !Filtered(inbox[taken].src, connection, tag)
    {
      taken := 0;
      while taken < |inbox|
        invariant taken <= |inbox|
        invariant forall i :: 0 <= i < taken ==> inbox[i].isValid && Filtered(inbox[i].src, connection, tag)
      {
        var src := inbox[taken].src;
        DropsExactlyTheSuspected(processIsAlive, rank, src, connection, tag);
        var shouldDrop := ShouldDrop(processIsAlive, rank, src, connection, tag);
        if !shouldDrop || !inbox[taken].isValid {
          return;
        }
        taken := taken + 1;
      }
    }

    method PublishPort(port: string)
      modifies this`publishedPort
      ensures publishedPort == Some(port)
    {
      publishedPort := Some(port);
    }

    method SetNodeStatus(index: int, isAlive: bool)
      requires Valid() && 0 <= index < clusterSize - 1
      modifies this`processIsAlive, this`history
      ensures Valid() && history == old(history) + [Status(index, isAlive)]
      ensures View() == if isAlive then old(View()) + {IndexToId(rank, index)}
                        else old(View()) - {IndexToId(rank, index)}
      ensures processIsAlive == old(processIsAlive)[index := isAlive]
    {
      SlotUpdate(rank, processIsAlive, index, isAlive);
      processIsAlive, history := processIsAlive[index := isAlive], history + [Status(index, isAlive)];
    }
  }

  /** generateUniqueId: MPI_Wtime truncated to whole seconds. */
  function IdAt(time: real): (id: int)
    requires time >= 0.0
    ensures id as real <= time < (id + 1) as real
  {
    time.Floor
  }
}
