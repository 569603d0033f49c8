/**
 * `AutoReset<T>`: sets a variable for the lifetime of a scope and restores
 * the value it had before. The variable is a `Cell`; `T` may be any type,
 * including one that can only be moved.
 */
module AutoResets {

  /** A variable that an `AutoReset` points at. */
  class Cell<T> {
    var value: T

    constructor (value: T)
      ensures this.value == value
    {
      this.value := value;
    }
  }

  class AutoReset<T> {
    const variable: Cell<T>
    /** `original_value_`. */
    const original: T

    /** The variable takes `newValue`; the value it held is saved. */
    constructor (variable: Cell<T>, newValue: T)
      modifies variable
      ensures this.variable == variable && original == old(variable.value)
      ensures variable.value == newValue
    {
      this.variable := variable;
      original := variable.value;
      new;
      variable.value := newValue;
    }

    /** The destructor puts the saved value back. */
    method Dispose()
      modifies variable
      ensures variable.value == original
    {
      variable.value := original;
    }
  }

  /**
   * Two nested scopes on one variable: inside both the inner value holds,
   * between them the outer one, and afterwards the value from before.
   */
  method NestedScopes<T>(v: Cell<T>, outer: T, inner: T) returns (seenInner: T, seenBetween: T)
    modifies v
    ensures seenInner == inner && seenBetween == outer
    ensures v.value == old(v.value)
  {
    var a := new AutoReset(v, outer);
    var b := new AutoReset(v, inner);
    seenInner := v.value;
    b.Dispose();
    seenBetween := v.value;
    a.Dispose();
  }
}
