/** Control points and the names derived from them. A shared object of the translation (mutex, condvar,
    thread) is identified by the control point whose translation created it. */
module ControlPoints {
  /** Block `b` of function `f`. */
  datatype Site = Site(f: nat, b: nat)

  /** A spawned thread is named after the call that spawns it. */
  datatype ThreadName = MainThread | Spawned(parent: ThreadName, stack: seq<Site>)

  /** The translation inlines calls, so a point is a thread and the call stack of blocks leading to it. */
  datatype Point = Point(thread: ThreadName, stack: seq<Site>)
}
