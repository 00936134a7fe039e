/** The batch protocol of `JMAP.Connection`: a request is an ordered list of
    `[ name, args, tag ]` triples, a response the same shape, and a tag is
    the position of the call in its batch written in decimal, the way
    `callMethod` mints it (`this._sendQueue.length + ''`). */
module Protocol {
  import opened Options
  import opened Strings
  import opened Json

  /** One method call of a batch. */
  datatype Call = Call(name: string, args: Json, tag: string)

  /** A call a handler asks `callMethod` to make, before it has a tag. */
  datatype Invocation = Invocation(name: string, args: Json)

  /** One element of the server's response array. */
  datatype Response = Response(name: string, result: Json, tag: string)

  /** Identity of a callback function supplied by the application. */
  type CallbackId = nat

  /** An element of `_callbackQueue`: a tag, `''` for a callback that is not
      tied to one call, and the callback. */
  datatype CallbackEntry = CallbackEntry(tag: string, cb: CallbackId)

  /** What `makeRequest` returns: the calls and the callbacks of one batch. */
  datatype Batch = Batch(calls: seq<Call>, callbacks: seq<CallbackEntry>)

  /** `args || {}`: falsy arguments (`undefined`, `null`, ...) become an
      empty object. */
  function ArgsOr(args: Json): (r: Json)
    ensures Truthy(Some(r))
    ensures Truthy(Some(args)) ==> r == args
  {
    if Truthy(Some(args)) then args else EmptyObject
  }

  /** The calls `callMethod` appends for `invs` to a queue of length `start`:
      each is tagged with the queue length at the time, as a string. */
  function Tagged(start: nat, invs: seq<Invocation>): (r: seq<Call>)
    ensures |r| == |invs|
    decreases |invs|
  {
    if invs == [] then []
    else [Call(invs[0].name, ArgsOr(invs[0].args), NatToString(start))] + Tagged(start + 1, invs[1..])
  }

  /** Call `i` of the batch is invocation `i`, tagged `start + i`. */
  lemma {:induction false} TaggedAt(start: nat, invs: seq<Invocation>, i: nat)
    requires i < |invs|
    ensures Tagged(start, invs)[i] == Call(invs[i].name, ArgsOr(invs[i].args), NatToString(start + i))
    decreases i
  {
    if i > 0 {
      TaggedAt(start + 1, invs[1..], i - 1);
    }
  }

  lemma TaggedAppend(start: nat, a: seq<Invocation>, b: seq<Invocation>)
    ensures Tagged(start, a + b) == Tagged(start, a) + Tagged(start + |a|, b)
  {
    var l := Tagged(start, a + b);
    var r := Tagged(start, a) + Tagged(start + |a|, b);
    forall i | 0 <= i < |l|
      ensures l[i] == r[i]
    {
      TaggedAt(start, a + b, i);
      if i >= |a| {
        assert (a + b)[i] == b[i - |a|];
        TaggedAt(start + |a|, b, i - |a|);
      } else {
        TaggedAt(start, a, i);
      }
    }
  }

  /** Every call's tag is its own index in the queue. */
  predicate TagsAreIndices(calls: seq<Call>) {
    forall i :: 0 <= i < |calls| ==> calls[i].tag == NatToString(i)
  }

  /** Appending tagged calls to an indexed queue keeps it indexed. */
  lemma TaggedKeepsIndices(q: seq<Call>, invs: seq<Invocation>)
    requires TagsAreIndices(q)
    ensures TagsAreIndices(q + Tagged(|q|, invs))
  {
    var r := q + Tagged(|q|, invs);
    forall i | 0 <= i < |r|
      ensures r[i].tag == NatToString(i)
    {
      if i >= |q| {
        TaggedAt(|q|, invs, i - |q|);
      }
    }
  }

  /** `+tag`, read back as an index; `+''` is 0. Only plain digit strings
      are read: JavaScript's unary `+` also turns " 1", "1e0" and "0x1"
      into 1, and those are `None` here. */
  function TagIndex(tag: string): Option<nat> {
    if tag == "" then Some(0) else ParseNat(tag)
  }

  /** `remoteCalls[ +tag ]`, `None` when that is `undefined`. */
  function CallAt(calls: seq<Call>, tag: string): (r: Option<Call>)
    ensures r.Some? ==> r.value in calls
  {
    match TagIndex(tag)
    case Some(k) => if k < |calls| then Some(calls[k]) else None
    case None => None
  }

  /** In a batch whose tags are indices the tags are pairwise distinct, and
      the tag of call `k` leads back to call `k`. */
  lemma TagsCorrelate(calls: seq<Call>, k: nat)
    requires TagsAreIndices(calls) && k < |calls|
    ensures CallAt(calls, calls[k].tag) == Some(calls[k])
    ensures forall j :: 0 <= j < |calls| && j != k ==> calls[j].tag != calls[k].tag
  {
    ParseNatToString(k);
    forall j | 0 <= j < |calls| && j != k
      ensures calls[j].tag != calls[k].tag
    {
      if calls[j].tag == calls[k].tag {
        NatToStringInjective(j, k);
      }
    }
  }

  /** A tag minted for a queue of length `n`: empty, or the index of a call. */
  predicate IsCallTag(tag: string, n: nat) {
    tag == "" || exists k :: 0 <= k < n && tag == NatToString(k)
  }

  /** The responses whose tag is `tag`, in order: `data.filter( call =>
      call[2] === tag )`. */
  function Matching(data: seq<Response>, tag: string): (r: seq<Response>)
    ensures forall x :: x in r <==> x in data && x.tag == tag
    ensures |r| <= |data|
  {
    if data == [] then []
    else (if data[0].tag == tag then [data[0]] else []) + Matching(data[1..], tag)
  }

  /** Filtering a concatenation filters each part. */
  lemma {:induction false} MatchingAppend(a: seq<Response>, b: seq<Response>, tag: string)
    ensures Matching(a + b, tag) == Matching(a, tag) + Matching(b, tag)
  {
    if a == [] {
      assert a + b == b;
    } else {
      assert (a + b)[0] == a[0];
      assert (a + b)[1..] == a[1..] + b;
      MatchingAppend(a[1..], b, tag);
    }
  }
}
