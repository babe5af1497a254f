/**
 * Browser facilities the components use: `localStorage` (an object updated
 * in place) and the `FormData` payloads the forms send.
 */
module Browser {

  import opened Js

  /** The browser's `localStorage`: a string-to-string store updated in place. */
  class LocalStorage {
    var items: map<string, string>

    constructor (initial: map<string, string>)
      ensures items == initial
    {
      items := initial;
    }

    /** `localStorage.getItem(key)`: the stored string, or null. */
    function GetItem(key: string): (r: Option<string>)
      reads this
      ensures r.Some? <==> key in items
      ensures r.Some? ==> r.value == items[key]
    {
      if key in items then Some(items[key]) else None
    }

    /** `localStorage.setItem(key, value)`. */
    method SetItem(key: string, value: string)
      modifies this
      ensures items == old(items)[key := value]
    {
      items := items[key := value];
    }

    /** `localStorage.removeItem(key)`: a missing key is no error. */
    method RemoveItem(key: string)
      modifies this
      ensures items == old(items) - {key}
    {
      items := items - {key};
    }
  }

  /** A `File` chosen in a file input; only its name and size matter here. */
  datatype File = File(name: string, size: nat)

  /** One value appended to a `FormData`: a string or a file. */
  datatype Part = Text(text: string) | Blob(file: File)

  /** A `FormData` body: its `append` calls in order. */
  type Payload = seq<(string, Part)>

  /** The names of a payload's fields, in order. */
  function Keys(p: Payload): (r: seq<string>)
    ensures |r| == |p|
    ensures forall i :: 0 <= i < |p| ==> r[i] == p[i].0
  {
    seq(|p|, i requires 0 <= i < |p| => p[i].0)
  }

  /** The names of two payloads sent one after the other. */
  lemma KeysConcat(a: Payload, b: Payload)
    ensures Keys(a + b) == Keys(a) + Keys(b)
  {
  }
}
