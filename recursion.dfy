/**
 * The recursion guard `isCyclic`: decides, from the current stack trace,
 * whether the forwarding call that invoked it is nested inside another
 * invocation of the same function, so that its event must not be emitted.
 */
module Recursion {
  import opened Wrappers
  import opened StackTrace

  /** JavaScript truthiness of the `stack` property: both `undefined` and
      the empty string are falsy. */
  predicate Truthy(stack: Option<string>) {
    stack.Some? && stack.value != ""
  }

  /** Frame 0 is the guard itself and is ignored; frame 1 is its caller.
      The stack is cyclic when the caller's name occurs again further out.
      A repeat among the other frames does not count. */
  predicate CallerRecurs(frames: seq<string>) {
    |frames| >= 2 && frames[1] in frames[2..]
  }

  /** What `isCyclic` answers for a given value of `new Error().stack`. */
  predicate Cyclic(stack: Option<string>) {
    Truthy(stack) && CallerRecurs(FrameNames(stack.value))
  }

  /** The guard as written: the first match is dropped, the first match of
      the loop becomes `callerFn`, and each later match is compared with it. */
  method IsCyclic(stack: Option<string>) returns (cyclic: bool)
    ensures cyclic <==> Cyclic(stack)
    ensures !Truthy(stack) ==> !cyclic
  {
    if !Truthy(stack) {
      return false;
    }
    var matches := FrameNames(stack.value);
    // `regex.exec` once before the loop: the guard's own frame is skipped.
    var i := if matches == [] then 0 else 1;
    var callerFn: Option<string> := None;
    while i < |matches|
      invariant i <= |matches|
      invariant matches != [] ==> 1 <= i
      invariant callerFn == if i <= 1 then None else Some(matches[1])
      invariant forall j :: 2 <= j < i ==> matches[j] != matches[1]
    {
      var m := matches[i];
      if callerFn.None? || callerFn.value == "" {
        callerFn := Some(m);
      } else if callerFn.value == m {
        assert matches[2..][i - 2] == m;
        return true;
      }
      i := i + 1;
    }
    assert |matches| >= 2 ==> forall k :: 0 <= k < |matches[2..]| ==> matches[2..][k] != matches[1];
    return false;
  }

  /** Which frame the guard sits in does not matter: only frames 1 and later are read. */
  lemma GuardFrameIgnored(guard: string, other: string, rest: seq<string>)
    ensures CallerRecurs([guard] + rest) == CallerRecurs([other] + rest)
  {
    assert ([guard] + rest)[1..] == rest == ([other] + rest)[1..];
  }

  /** Fewer than two frames can never be cyclic. */
  lemma ShortStackNotCyclic(frames: seq<string>)
    requires |frames| < 2
    ensures !CallerRecurs(frames)
  {
  }

  /** A frame repeated further out that is not frame 1 is not detected. */
  lemma OtherRepeatIgnored()
    ensures !CallerRecurs(["isCyclic", "log", "listener", "listener"])
  {
    assert ["isCyclic", "log", "listener", "listener"][2..] == ["listener", "listener"];
  }

  /** On a stack trace in the usual form, the guard reports a cycle exactly
      when the name of frame 1 appears again among the frames after it. */
  lemma CyclicOnRenderedStack(header: string, frames: seq<Frame>)
    requires header != [] && PlainHeader(header)
    requires forall k :: 0 <= k < |frames| ==> WellFormed(frames[k])
    ensures Cyclic(Some(Render(header, frames))) <==>
              |frames| >= 2 && exists k :: 2 <= k < |frames| && frames[k].name == frames[1].name
  {
    var stack := Render(header, frames);
    assert stack[..|header|] == header by {
      if |frames| > 0 {
        assert stack == header + "\n" + Join(FrameLines(frames));
      }
    }
    FrameNamesOfRender(header, frames);
    var names := NamesOf(frames);
    if |frames| >= 2 {
      assert forall k :: 2 <= k < |frames| ==> names[2..][k - 2] == frames[k].name;
    }
  }

  /** A listener that re-enters the same forwarding function: the nested
      guard sees the forwarding frame at position 1 and again further out,
      so the nested event is suppressed. */
  lemma ReentrantCallSuppressed(header: string, guard: Frame, forwarder: Frame,
                                between: seq<Frame>, outer: Frame, rest: seq<Frame>)
    requires header != [] && PlainHeader(header)
    requires forall f | f in [guard, forwarder] + between + [outer] + rest :: WellFormed(f)
    requires outer.name == forwarder.name
    ensures Cyclic(Some(Render(header, [guard, forwarder] + between + [outer] + rest)))
  {
    var frames := [guard, forwarder] + between + [outer] + rest;
    assert forall k :: 0 <= k < |frames| ==> frames[k] in frames;
    CyclicOnRenderedStack(header, frames);
    assert frames[2 + |between|] == outer;
  }

  /** An outermost forwarding call whose name does not appear further out
      is not suppressed. */
  lemma OutermostCallEmits(header: string, guard: Frame, forwarder: Frame, rest: seq<Frame>)
    requires header != [] && PlainHeader(header)
    requires forall f | f in [guard, forwarder] + rest :: WellFormed(f)
    requires forall f | f in rest :: f.name != forwarder.name
    ensures !Cyclic(Some(Render(header, [guard, forwarder] + rest)))
  {
    var frames := [guard, forwarder] + rest;
    assert forall k :: 0 <= k < |frames| ==> frames[k] in frames;
    CyclicOnRenderedStack(header, frames);
    assert forall k :: 2 <= k < |frames| ==> frames[k] == rest[k - 2];
  }
}
