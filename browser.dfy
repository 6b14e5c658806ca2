/** The pieces of the browser environment the components read and write:
    `localStorage`, class lists and JavaScript's truthiness of strings. */
module Browser {
  import opened Wrappers

  /** `window.localStorage`: string keys to string values, shared by the components. */
  class LocalStorage {
    var items: map<string, string>

    constructor (initial: map<string, string>)
      ensures items == initial
    {
      items := initial;
    }

    /** `localStorage.getItem(key)`; `None` is `null`. */
    function GetItem(key: string): (r: Option<string>)
      reads this
      ensures r.Some? <==> key in items
      ensures r.Some? ==> r.value == items[key]
    {
      if key in items then Some(items[key]) else None
    }

    /** `localStorage.setItem(key, value)`. */
    method SetItem(key: string, value: string)
      modifies this
      ensures items == old(items)[key := value]
    {
      items := items[key := value];
    }
  }

  /** A string-or-null value is truthy in JavaScript when it is present and not empty. */
  predicate Truthy(v: Option<string>)
  {
    v.Some? && v.value != ""
  }

  /** `a || b` for a string-or-null `a` and a string `b`. */
  function Or(a: Option<string>, b: string): (r: string)
    ensures Truthy(a) ==> r == a.value
    ensures !Truthy(a) ==> r == b
  {
    if Truthy(a) then a.value else b
  }

  /** `a || b` where neither side need be a string: the first truthy one, else `b`. */
  function OrOpt(a: Option<string>, b: Option<string>): (r: Option<string>)
    ensures Truthy(a) ==> r == a
    ensures !Truthy(a) ==> r == b
  {
    if Truthy(a) then a else b
  }

  /** `element.classList.toggle(c)`. */
  function Toggle(classes: set<string>, c: string): (r: set<string>)
    ensures c in r <==> c !in classes
    ensures forall d :: d != c ==> (d in r <==> d in classes)
  {
    if c in classes then classes - {c} else classes + {c}
  }

  /** Toggling the same class twice gives back the original class list. */
  lemma ToggleTwice(classes: set<string>, c: string)
    ensures Toggle(Toggle(classes, c), c) == classes
  {
    var once := Toggle(classes, c);
    var twice := Toggle(once, c);
    assert forall d :: d in twice <==> d in classes by {
      forall d ensures d in twice <==> d in classes {
        if d == c {
          assert (c in twice) == (c !in once);
        }
      }
    }
  }
}
