/** The two kinds of ref the host framework lets a caller pass: an object slot or a callback. */
module ReactRefs {

  /** An object ref: a mutable `.current` slot. */
  class MutableRef<T> {
    var current: T

    constructor (initial: T)
      ensures current == initial
    {
      current := initial;
    }
  }

  /** A callback ref, modelled by the values it has been invoked with. */
  class RefCallback<T> {
    var received: seq<T>

    constructor ()
      ensures received == []
    {
      received := [];
    }

    method Invoke(value: T)
      modifies this
      ensures received == old(received) + [value]
    {
      received := received + [value];
    }
  }

  datatype Ref<T> = ObjectRef(slot: MutableRef<T>) | CallbackRef(callback: RefCallback<T>)
  {
    /** The one object that setting this ref changes. */
    function Target(): object
    {
      match this
      case ObjectRef(slot) => slot
      case CallbackRef(callback) => callback
    }
  }
}
