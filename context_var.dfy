/** libs/contextVar_wrapper.py: a typed wrapper over one context variable, modelled as the single
  * cell of the context the caller runs in. */
module ContextVar {
  import opened Wrappers

  /** What `clear` stores is the empty dict `{}`, not a value of the wrapper's type. */
  datatype Stored<T> = Value(v: T) | EmptyDict

  class ContextVarWrapper<T> {
    /** The variable's value in this context; None while it has never been set. */
    var cell: Option<Stored<T>>

    /** Wrapping a fresh variable: nothing is stored yet. */
    constructor ()
      ensures cell == None
    {
      cell := None;
    }

    /** `set(value)`: stores the value, replacing whatever was there. */
    method Set(value: T)
      modifies this
      ensures cell == Some(Value(value))
    {
      cell := Some(Value(value));
    }

    /** `get()`: the stored value, or None (the caught LookupError) before any `set`; after
      * `clear` it is the empty dict. */
    method Get() returns (r: Option<Stored<T>>)
      ensures r == cell
    {
      r := cell;
    }

    /** `clear()`: stores `{}`, so a later `get` returns the empty dict rather than None. */
    method Clear()
      modifies this
      ensures cell == Some(EmptyDict)
    {
      cell := Some(EmptyDict);
    }
  }

  /** The sequence of calls the wrapper promises on one variable: `get` before any `set` is None,
    * `get` after `set(a)` is a, a second `set(b)` overwrites it, and after `clear` `get` is the
    * empty dict, not None. */
  method Lifecycle<T>(a: T, b: T) returns (fresh0: Option<Stored<T>>, afterSet: Option<Stored<T>>,
                                          afterReset: Option<Stored<T>>, afterClear: Option<Stored<T>>)
    ensures fresh0 == None
    ensures afterSet == Some(Value(a)) && afterReset == Some(Value(b))
    ensures afterClear == Some(EmptyDict)
  {
    var w := new ContextVarWrapper<T>();
    fresh0 := w.Get();
    w.Set(a);
    afterSet := w.Get();
    w.Set(b);
    afterReset := w.Get();
    w.Clear();
    afterClear := w.Get();
  }
}
