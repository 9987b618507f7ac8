/**
 * `defaults(obj, defaultsObj)`: copy into `obj`, in place, every key of
 * `defaultsObj` that `obj` does not already have.
 */
module Defaults {
  import opened JsValues

  /** The properties `obj` ends up with: its own, plus the defaults for the keys it lacks. */
  function Merged<V>(obj: map<string, V>, defaultsObj: map<string, V>): (r: map<string, V>)
    ensures r.Keys == obj.Keys + defaultsObj.Keys
    ensures forall k :: k in obj ==> r[k] == obj[k]
    ensures forall k :: k in defaultsObj && k !in obj ==> r[k] == defaultsObj[k]
  {
    defaultsObj + obj
  }

  /** Applying the same defaults a second time changes nothing. */
  lemma MergedIdempotent<V>(obj: map<string, V>, defaultsObj: map<string, V>)
    ensures Merged(Merged(obj, defaultsObj), defaultsObj) == Merged(obj, defaultsObj)
  {
  }

  /** A JavaScript object, as the map of its own properties. */
  class JsObject {
    var props: map<string, Value>

    constructor (props: map<string, Value>)
      ensures this.props == props
    {
      this.props := props;
    }

    /** `defaults(this, defaultsObj)`: the `for (k in defaultsObj)` loop of the source. */
    method Defaults(defaultsObj: map<string, Value>)
      modifies this
      ensures props == Merged(old(props), defaultsObj)
    {
      var pending := defaultsObj.Keys;
      while pending != {}
        invariant pending <= defaultsObj.Keys
        invariant props == Merged(old(props), defaultsObj - pending)
        decreases pending
      {
        var k :| k in pending;
        if k !in props {
          props := props[k := defaultsObj[k]];
        }
        pending := pending - {k};
      }
      assert defaultsObj - {} == defaultsObj;
    }
  }
}
