/** The pieces of the browser's runtime that the three scripts lean on:
    JavaScript values and their truthiness, Array.prototype.slice, FormData
    and localStorage. */
module Js {

  datatype Option<+T> = None | Some(value: T)

  /** A JSON value as `JSON.parse` yields it or `JSON.stringify` takes it.
      Numbers are integers here (fractions and NaN are not modelled). */
  datatype Json =
    | JNull
    | JBool(b: bool)
    | JNum(n: int)
    | JStr(s: string)
    | JArr(items: seq<Json>)
    | JObj(fields: seq<(string, Json)>)

  /** JavaScript's ToBoolean on a JSON value: null, false, 0 and "" are
      falsy; arrays and objects, even empty ones, are truthy. */
  predicate Truthy(v: Json)
  {
    match v
    case JNull => false
    case JBool(b) => b
    case JNum(n) => n != 0
    case JStr(s) => s != ""
    case JArr(_) => true
    case JObj(_) => true
  }

  /** ToBoolean on a string that may be null: `localStorage.getItem`,
      `URLSearchParams.get` and `request.args.get` all give null when the key
      is absent. */
  predicate TruthyText(s: Option<string>)
  {
    s.Some? && s.value != ""
  }

  /** A relative index of Array.prototype.slice, resolved against the length:
      negative counts from the end, and the result is clamped to [0, n]. */
  function RelativeIndex(k: int, n: nat): (r: nat)
    ensures r <= n
    ensures 0 <= k <= n ==> r == k
    ensures k > n ==> r == n
    ensures k < 0 ==> r == if n + k > 0 then n + k else 0
  {
    if k < 0 then (if n + k > 0 then n + k else 0)
    else if k > n then n
    else k
  }

  /** `s.slice(start, end)`. */
  function Slice<T>(s: seq<T>, start: int, end: int): (r: seq<T>)
    ensures var from, to := RelativeIndex(start, |s|), RelativeIndex(end, |s|);
            |r| == (if from <= to then to - from else 0) &&
            forall i :: 0 <= i < |r| ==> r[i] == s[from + i]
  {
    var from, to := RelativeIndex(start, |s|), RelativeIndex(end, |s|);
    if from <= to then s[from..to] else []
  }

  /** A file the user picked in an `<input type="file">`; only its name is
      modelled. */
  datatype File = File(filename: string)

  /** One `FormData.append` entry. */
  datatype FormEntry =
    | TextEntry(key: string, text: string)
    | FileEntry(key: string, file: File)

  /** What the server reads as `request.files.getlist(key)`: the files sent
      under `key`, in the order they were appended. */
  function FilesUnder(entries: seq<FormEntry>, key: string): (r: seq<File>)
    ensures |r| <= |entries|
    ensures forall f :: f in r ==> FileEntry(key, f) in entries
  {
    if entries == [] then []
    else
      var rest := FilesUnder(entries[1..], key);
      if entries[0].FileEntry? && entries[0].key == key then [entries[0].file] + rest else rest
  }

  /** What the server reads as `request.form.get(key)`: the first text value
      sent under `key`. */
  function FirstText(entries: seq<FormEntry>, key: string): (r: Option<string>)
    ensures r.Some? ==> TextEntry(key, r.value) in entries
    ensures r.None? ==> forall i :: 0 <= i < |entries| ==> !(entries[i].TextEntry? && entries[i].key == key)
  {
    if entries == [] then None
    else if entries[0].TextEntry? && entries[0].key == key then Some(entries[0].text)
    else FirstText(entries[1..], key)
  }

  /** The entry at `i` is the first text under its key: `form.get` finds it. */
  lemma {:induction false} FirstTextAt(entries: seq<FormEntry>, key: string, i: nat)
    requires i < |entries| && entries[i].TextEntry? && entries[i].key == key
    requires forall j :: 0 <= j < i ==> !(entries[j].TextEntry? && entries[j].key == key)
    ensures FirstText(entries, key) == Some(entries[i].text)
  {
    if i > 0 {
      FirstTextAt(entries[1..], key, i - 1);
    }
  }

  /** No text under the key: `form.get` gives null. */
  lemma {:induction false} FirstTextAbsent(entries: seq<FormEntry>, key: string)
    requires forall j :: 0 <= j < |entries| ==> !(entries[j].TextEntry? && entries[j].key == key)
    ensures FirstText(entries, key) == None
  {
    if entries != [] {
      FirstTextAbsent(entries[1..], key);
    }
  }

  /** The browser's `localStorage` for one origin: a string-to-string map that
      the scripts read and clear. */
  class LocalStorage {
    var items: map<string, string>

    constructor (initial: map<string, string>)
      ensures items == initial
    {
      items := initial;
    }

    /** `localStorage.getItem(key)`: null exactly when the key is absent. */
    function GetItem(key: string): (r: Option<string>)
      reads this
      ensures r.Some? <==> key in items
      ensures r.Some? ==> r.value == items[key]
    {
      if key in items then Some(items[key]) else None
    }

    /** `localStorage.removeItem(key)`: that key is gone, every other entry
        stays as it was. */
    method RemoveItem(key: string)
      modifies this
      ensures items == old(items) - {key}
    {
      items := items - {key};
    }
  }
}
