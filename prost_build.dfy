/**
 * The service descriptors prost_build hands to a service generator, and the
 * selection both generators make: streaming methods are skipped.
 */
module ProstBuild {

  /** `prost_build::Method`: the fields the generators read. */
  datatype Method = Method(name: string, inputType: string, outputType: string, clientStreaming: bool, serverStreaming: bool)

  /** `prost_build::Service`: the fields the generators read. */
  datatype ServiceDesc = ServiceDesc(name: string, package: string, methods: seq<Method>)

  predicate IsStreaming(m: Method)
  {
    m.clientStreaming || m.serverStreaming
  }

  /** The methods a generator emits code for: the unary ones, in declaration order. */
  function Unary(ms: seq<Method>): (r: seq<Method>)
    ensures |r| <= |ms|
  {
    if ms == [] then []
    else Unary(ms[..|ms| - 1]) + (if IsStreaming(ms[|ms| - 1]) then [] else [ms[|ms| - 1]])
  }

  /** Exactly the unary methods are selected. */
  lemma {:induction false} UnaryMembers(ms: seq<Method>)
    ensures forall x :: x in Unary(ms) <==> x in ms && !IsStreaming(x)
  {
    if ms != [] {
      var init := ms[..|ms| - 1];
      UnaryMembers(init);
      assert ms == init + [ms[|ms| - 1]];
    }
  }

  /** One loop step: the next method is appended unless it streams. */
  lemma UnaryStep(ms: seq<Method>, i: nat)
    requires i < |ms|
    ensures Unary(ms[..i + 1]) == Unary(ms[..i]) + (if IsStreaming(ms[i]) then [] else [ms[i]])
  {
    assert ms[..i + 1][..i] == ms[..i];
  }

  /** The selection keeps declaration order: it distributes over concatenation. */
  lemma {:induction false} UnaryAppend(a: seq<Method>, b: seq<Method>)
    ensures Unary(a + b) == Unary(a) + Unary(b)
  {
    if b == [] {
      assert a + b == a;
    } else {
      var init := b[..|b| - 1];
      var last := b[|b| - 1];
      assert (a + b)[..|a + b| - 1] == a + init;
      assert (a + b)[|a + b| - 1] == last;
      UnaryAppend(a, init);
    }
  }

  /** Every unary method is emitted once per declaration; streaming ones never. */
  lemma {:induction false} UnaryCount(ms: seq<Method>)
    ensures |Unary(ms)| == |ms| - |StreamingOf(ms)|
  {
    if ms != [] {
      UnaryCount(ms[..|ms| - 1]);
    }
  }

  /** The streaming methods, in declaration order. */
  function StreamingOf(ms: seq<Method>): (r: seq<Method>)
    ensures forall x :: x in r ==> x in ms && IsStreaming(x)
  {
    if ms == [] then []
    else StreamingOf(ms[..|ms| - 1]) + (if IsStreaming(ms[|ms| - 1]) then [ms[|ms| - 1]] else [])
  }
}
