/**
 * The Android owners a controller can be tied to, and the liveness policies the
 * versions of the library apply to them when a UI message is handled.
 */
module Owners {
  import opened Optional

  class Activity {
    const simpleName: string
    var isFinishing: bool

    constructor (simpleName: string)
      ensures this.simpleName == simpleName && !isFinishing
    {
      this.simpleName := simpleName;
      isFinishing := false;
    }

    /** `Activity.finish()`: from now on `isFinishing` holds. */
    method Finish()
      modifies this
      ensures isFinishing
    {
      isFinishing := true;
    }
  }

  class Fragment {
    const simpleName: string
    var hasActivity: bool   // `getActivity() != null`
    var hasContext: bool    // `getContext() != null`
    var isDetached: bool

    /** A fragment attached to its host activity. */
    constructor (simpleName: string)
      ensures this.simpleName == simpleName && hasActivity && hasContext && !isDetached
    {
      this.simpleName := simpleName;
      hasActivity, hasContext, isDetached := true, true, false;
    }

    /** `FragmentTransaction.detach`: the fragment keeps its host but is detached. */
    method Detach()
      modifies this
      ensures isDetached && hasActivity == old(hasActivity) && hasContext == old(hasContext)
    {
      isDetached := true;
    }

    /** The host activity goes away: `getActivity()` and `getContext()` return null. */
    method LoseHost()
      modifies this
      ensures !hasActivity && !hasContext && isDetached == old(isDetached)
    {
      hasActivity, hasContext := false, false;
    }
  }

  /** The receiver of `async` in Async.kt and the older asyncawait AsyncUi.kt (`Any`). */
  datatype Target =
    | ActivityTarget(activity: Activity)
    | FragmentTarget(fragment: Fragment)
    | OtherTarget(id: nat, name: string)
  {
    function Objects(): set<object> {
      match this
      case ActivityTarget(a) => {a}
      case FragmentTarget(f) => {f}
      case OtherTarget(_, _) => {}
    }

    /** `this::class.java.simpleName` */
    function SimpleName(): string {
      match this
      case ActivityTarget(a) => a.simpleName
      case FragmentTarget(f) => f.simpleName
      case OtherTarget(_, name) => name
    }

    /** The owner's lifecycle state as it stands now. */
    function View(): OwnerView
      reads Objects()
    {
      match this
      case ActivityTarget(a) => ActivityView(ActivityState(a.isFinishing))
      case FragmentTarget(f) => FragmentView(FragmentState(f.hasActivity, f.hasContext, f.isDetached))
      case OtherTarget(_, _) => OtherView
    }
  }

  datatype ActivityState = ActivityState(isFinishing: bool)
  datatype FragmentState = FragmentState(hasActivity: bool, hasContext: bool, isDetached: bool)

  datatype OwnerView = ActivityView(activity: ActivityState) | FragmentView(fragment: FragmentState) | OtherView

  function ActivityOf(a: Activity?): Option<ActivityState>
    reads a
  {
    if a == null then None else Some(ActivityState(a.isFinishing))
  }

  function FragmentOf(f: Fragment?): Option<FragmentState>
    reads f
  {
    if f == null then None else Some(FragmentState(f.hasActivity, f.hasContext, f.isDetached))
  }

  /** Liveness of Async.kt and of the older asyncawait AsyncUi.kt: a `when` on the owner's type. */
  function AliveByKind(v: OwnerView): bool {
    match v
    case ActivityView(a) => !a.isFinishing
    case FragmentView(f) => f.hasActivity && !f.isDetached
    case OtherView => true
  }

  /**
   * Liveness of the coroutineandroid and metaroutine controllers: the activity slot first,
   * then the fragment slot (judged by its context); an owner-less controller is never alive.
   */
  function AliveOrDead(activity: Option<ActivityState>, fragment: Option<FragmentState>): bool {
    if activity.Some? then !activity.value.isFinishing
    else if fragment.Some? then fragment.value.hasContext && !fragment.value.isDetached
    else false
  }

  /**
   * Liveness of the tube controller: the activity slot first, then the fragment slot
   * (judged by its activity); an owner-less controller is always alive.
   */
  function AliveOrLive(activity: Option<ActivityState>, fragment: Option<FragmentState>): bool {
    if activity.Some? then !activity.value.isFinishing
    else if fragment.Some? then fragment.value.hasActivity && !fragment.value.isDetached
    else true
  }

  /** The owner a two-slot controller actually consults: the activity if set, else the fragment. */
  function Consulted(activity: Option<ActivityState>, fragment: Option<FragmentState>): OwnerView {
    if activity.Some? then ActivityView(activity.value)
    else if fragment.Some? then FragmentView(fragment.value)
    else OtherView
  }

  /** Tube's policy is the type table of Async.kt applied to the owner it consults. */
  lemma TubeIsKindTable(activity: Option<ActivityState>, fragment: Option<FragmentState>)
    ensures AliveOrLive(activity, fragment) == AliveByKind(Consulted(activity, fragment))
  {
  }

  /**
   * coroutineandroid/metaroutine differ from tube exactly on the owner-less controller
   * and on fragments whose context and activity presence disagree.
   */
  lemma DeadDefaultVersusLiveDefault(activity: Option<ActivityState>, fragment: Option<FragmentState>)
    ensures activity.None? && fragment.None? ==> !AliveOrDead(activity, fragment) && AliveOrLive(activity, fragment)
    ensures (activity.Some? || (fragment.Some? && fragment.value.hasContext == fragment.value.hasActivity))
            ==> AliveOrDead(activity, fragment) == AliveOrLive(activity, fragment)
    ensures AliveOrDead(activity, fragment) ==> activity.Some? || fragment.Some?
  {
  }
}
