/**
 * The stack-trace refinement of Async.kt: the trace captured at the last `await`
 * is cut so that it starts at the caller of that `await`.
 */
module StackTrace {

  datatype Frame = Frame(className: string, methodName: string)

  /** Name of the controller method whose frame marks the `await` call site. */
  const Marker: string := "keepAwaitCallerStackTrace"

  predicate IsMarker(f: Frame) {
    f.methodName == Marker
  }

  /** Kotlin's `dropWhile { it.methodName != Marker }`. */
  function DropUntilMarker(trace: seq<Frame>): seq<Frame> {
    if trace == [] then []
    else if !IsMarker(trace[0]) then DropUntilMarker(trace[1..])
    else trace
  }

  /** Kotlin's `drop(n)`: never fails, an over-long drop gives the empty sequence. */
  function Drop(trace: seq<Frame>, n: nat): (r: seq<Frame>)
    ensures |r| == if n <= |trace| then |trace| - n else 0
  {
    if n <= |trace| then trace[n..] else []
  }

  /** `refineUiThreadStackTrace`: drop everything up to the marker, then the marker and the frame after it. */
  function Refine(trace: seq<Frame>): seq<Frame> {
    Drop(DropUntilMarker(trace), 2)
  }

  /** `i` is the position of the first marker frame in `trace`. */
  predicate FirstMarkerAt(trace: seq<Frame>, i: nat) {
    i < |trace| && IsMarker(trace[i]) && forall j :: 0 <= j < i ==> !IsMarker(trace[j])
  }

  lemma {:induction false} DropUntilMarkerFindsFirst(trace: seq<Frame>)
    ensures (forall j :: 0 <= j < |trace| ==> !IsMarker(trace[j])) ==> DropUntilMarker(trace) == []
    ensures forall i: nat :: FirstMarkerAt(trace, i) ==> DropUntilMarker(trace) == trace[i..]
  {
    if trace != [] {
      DropUntilMarkerFindsFirst(trace[1..]);
      if !IsMarker(trace[0]) {
        forall i: nat | FirstMarkerAt(trace, i)
          ensures DropUntilMarker(trace) == trace[i..]
        {
          assert i > 0;
          assert FirstMarkerAt(trace[1..], i - 1);
          assert trace[1..][i - 1..] == trace[i..];
        }
        if forall j :: 0 <= j < |trace| ==> !IsMarker(trace[j]) {
          assert forall j :: 0 <= j < |trace[1..]| ==> !IsMarker(trace[1..][j]) by {
            forall j | 0 <= j < |trace[1..]| ensures !IsMarker(trace[1..][j]) {
              assert trace[1..][j] == trace[j + 1];
            }
          }
        }
      } else {
        forall i: nat | FirstMarkerAt(trace, i)
          ensures DropUntilMarker(trace) == trace[i..]
        {
          assert i == 0;
        }
      }
    }
  }

  /**
   * The refined trace is the part of the captured trace after the first marker frame and
   * the frame that follows it (the `await` itself), and empty when the marker is absent.
   */
  lemma RefineSpec(trace: seq<Frame>)
    ensures (forall j :: 0 <= j < |trace| ==> !IsMarker(trace[j])) ==> Refine(trace) == []
    ensures forall i: nat :: FirstMarkerAt(trace, i) ==>
              Refine(trace) == if i + 2 <= |trace| then trace[i + 2..] else []
  {
    DropUntilMarkerFindsFirst(trace);
    forall i: nat | FirstMarkerAt(trace, i)
      ensures Refine(trace) == if i + 2 <= |trace| then trace[i + 2..] else []
    {
      assert DropUntilMarker(trace) == trace[i..];
      if i + 2 <= |trace| {
        assert trace[i..][2..] == trace[i + 2..];
      }
    }
  }
}
