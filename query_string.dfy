/** Reading a URL query string back into its parameters: split at every `&`, then split
    each part at its first `=`. How the remote service parses a query (percent-decoding
    included) is not modelled; this is the reader the lemmas about the client's query
    strings are stated in. */
module QueryString {
  import opened Wrappers

  /** Position of the first occurrence of `c` in `s`. */
  function IndexOf(s: string, c: char): (i: nat)
    requires c in s
    ensures i < |s| && s[i] == c && c !in s[..i]
    decreases |s|
  {
    if s[0] == c then 0
    else
      var i := 1 + IndexOf(s[1..], c);
      assert s[..i] == [s[0]] + s[1..][..i - 1];
      i
  }

  /** The pieces of `s` between occurrences of `sep`, in order. */
  function Split(s: string, sep: char): (parts: seq<string>)
    ensures parts != []
    ensures forall k :: 0 <= k < |parts| ==> sep !in parts[k]
    decreases |s|
  {
    if sep in s then
      var i := IndexOf(s, sep);
      [s[..i]] + Split(s[i + 1..], sep)
    else [s]
  }

  /** One `name=value` parameter; a part without `=` is a name with an empty value. */
  function Param(part: string): (kv: (string, string))
    ensures '=' !in kv.0
  {
    if '=' in part then
      var i := IndexOf(part, '=');
      (part[..i], part[i + 1..])
    else (part, "")
  }

  function ParamsOf(parts: seq<string>): (ps: seq<(string, string)>)
    ensures |ps| == |parts|
    ensures forall k :: 0 <= k < |parts| ==> ps[k] == Param(parts[k])
    decreases |parts|
  {
    if parts == [] then [] else [Param(parts[0])] + ParamsOf(parts[1..])
  }

  /** The parameters of a query string, in order. */
  function Params(q: string): seq<(string, string)> {
    ParamsOf(Split(q, '&'))
  }

  /** The value of the first parameter called `name`, if there is one. */
  function Lookup(ps: seq<(string, string)>, name: string): (v: Option<string>)
    ensures v.None? <==> forall k :: 0 <= k < |ps| ==> ps[k].0 != name
    ensures v.Some? ==> exists k :: 0 <= k < |ps| && ps[k] == (name, v.value)
    decreases |ps|
  {
    if ps == [] then None
    else if ps[0].0 == name then Some(ps[0].1)
    else
      var v := Lookup(ps[1..], name);
      assert v.Some? ==> exists k :: 0 <= k < |ps| && ps[k] == (name, v.value) by {
        if v.Some? {
          var k :| 0 <= k < |ps[1..]| && ps[1..][k] == (name, v.value);
          assert ps[k + 1] == (name, v.value);
        }
      }
      v
  }

  /** The first `c` of `a + [c] + b` is the one after `a` when `a` holds none. */
  lemma IndexOfAfter(a: string, c: char, b: string)
    requires c !in a
    ensures IndexOf(a + [c] + b, c) == |a|
  {
    var s := a + [c] + b;
    assert s[..|a|] == a;
    assert s[|a|] == c;
  }

  /** Splitting a string made of a `sep`-free piece, `sep` and a rest. */
  lemma SplitJoin(a: string, sep: char, b: string)
    requires sep !in a
    ensures Split(a + [sep] + b, sep) == [a] + Split(b, sep)
  {
    var s := a + [sep] + b;
    assert s[|a|] == sep;
    IndexOfAfter(a, sep, b);
    assert s[..|a|] == a;
    assert s[|a| + 1..] == b;
  }

  /** A string without `sep` splits into itself alone. */
  lemma SplitSingle(a: string, sep: char)
    requires sep !in a
    ensures Split(a, sep) == [a]
  {
  }

  /** `name=value` reads back as its name and value when the name holds no `=`. */
  lemma ParamJoin(name: string, value: string)
    requires '=' !in name
    ensures Param(name + "=" + value) == (name, value)
  {
    var s := name + "=" + value;
    assert s == name + ['='] + value;
    assert s[|name|] == '=';
    IndexOfAfter(name, '=', value);
    assert s[..|name|] == name;
    assert s[|name| + 1..] == value;
  }
}
