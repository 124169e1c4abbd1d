/** `cn` from src/libs/utils.ts: `classes.filter(Boolean).join(" ")`. */
module ClassNames {
  import opened Text

  /** One argument of `cn`: a string, `undefined` or `false`. */
  datatype ClassValue = Name(name: string) | Undefined | False

  /** JavaScript truthiness of an argument: only a non-empty string survives `filter(Boolean)`. */
  predicate Truthy(v: ClassValue) {
    v.Name? && v.name != ""
  }

  /** `filter(Boolean)`: the names of the truthy arguments, in argument order. */
  function Kept(vs: seq<ClassValue>): (r: seq<string>)
    ensures |r| <= |vs|
    ensures forall i :: 0 <= i < |r| ==> r[i] != ""
    ensures r == [] <==> forall i :: 0 <= i < |vs| ==> !Truthy(vs[i])
  {
    if vs == [] then []
    else (if Truthy(vs[0]) then [vs[0].name] else []) + Kept(vs[1..])
  }

  /** Total length of a list of strings. */
  function TotalLength(parts: seq<string>): nat {
    if parts == [] then 0 else |parts[0]| + TotalLength(parts[1..])
  }

  /** `Array.prototype.join(" ")`: one space between neighbours, none at the ends. */
  function Join(parts: seq<string>): (r: string)
    ensures parts != [] ==> |r| == TotalLength(parts) + |parts| - 1
  {
    if |parts| == 0 then ""
    else if |parts| == 1 then parts[0]
    else parts[0] + " " + Join(parts[1..])
  }

  /** `cn(...classes)`: empty exactly when no argument is truthy. */
  function Cn(vs: seq<ClassValue>): (r: string)
    ensures r == "" <==> forall i :: 0 <= i < |vs| ==> !Truthy(vs[i])
  {
    Join(Kept(vs))
  }

  /** `String.prototype.split(" ")`: the pieces between single spaces. */
  function SplitSpaces(s: string): (parts: seq<string>)
    ensures parts != []
    decreases |s|
  {
    var i := IndexOf(s, ' ');
    if i == |s| then [s] else [s[..i]] + SplitSpaces(s[i + 1..])
  }

  /** Filtering distributes over concatenation: pieces keep their relative order. */
  lemma {:induction false} KeptConcat(a: seq<ClassValue>, b: seq<ClassValue>)
    ensures Kept(a + b) == Kept(a) + Kept(b)
  {
    if a == [] {
      assert a + b == b;
    } else {
      assert (a + b)[1..] == a[1..] + b;
      KeptConcat(a[1..], b);
    }
  }

  /** One argument on its own: a truthy one comes back unchanged, any other gives "". */
  lemma CnSingle(v: ClassValue)
    ensures Cn([v]) == if Truthy(v) then v.name else ""
  {
    assert [v][1..] == [];
  }

  /** With k >= 1 kept pieces, the result is their total length plus k - 1 separators. */
  lemma CnLength(vs: seq<ClassValue>)
    requires exists i :: 0 <= i < |vs| && Truthy(vs[i])
    ensures |Cn(vs)| == TotalLength(Kept(vs)) + |Kept(vs)| - 1
  {
  }

  /** Joining is the inverse of splitting when no piece holds a space. */
  lemma {:induction false} SplitJoin(parts: seq<string>)
    requires parts != []
    requires forall i :: 0 <= i < |parts| ==> ' ' !in parts[i]
    ensures SplitSpaces(Join(parts)) == parts
  {
    var s := Join(parts);
    var p := parts[0];
    if |parts| == 1 {
      assert s == p;
      FirstIndex(s, ' ', |s|);
    } else {
      var rest := Join(parts[1..]);
      assert s == p + " " + rest;
      FirstIndex(s, ' ', |p|);
      assert s[..|p|] == p;
      assert s[|p| + 1..] == rest;
      assert forall i :: 0 <= i < |parts[1..]| ==> parts[1..][i] == parts[i + 1];
      SplitJoin(parts[1..]);
    }
  }

  /** `IndexOf` finds position `k` when `k` holds `c` (or is the end) and nothing before it does. */
  lemma FirstIndex(s: string, c: char, k: nat)
    requires k <= |s| && (k < |s| ==> s[k] == c)
    requires forall j :: 0 <= j < k ==> s[j] != c
    ensures IndexOf(s, c) == k
  {
  }

  /** When no class name given holds a space, splitting `cn`'s result on spaces
      gives back exactly the kept names, in order: pieces are separated by one
      space each and nothing else is added. */
  lemma CnSplits(vs: seq<ClassValue>)
    requires exists i :: 0 <= i < |vs| && Truthy(vs[i])
    requires forall i :: 0 <= i < |vs| && vs[i].Name? ==> ' ' !in vs[i].name
    ensures SplitSpaces(Cn(vs)) == Kept(vs)
  {
    var kept := Kept(vs);
    KeptNames(vs);
    forall i | 0 <= i < |kept| ensures ' ' !in kept[i] {
      assert kept[i] in kept;
    }
    SplitJoin(kept);
  }

  /** The kept pieces are exactly the names of the truthy arguments. */
  lemma {:induction false} KeptNames(vs: seq<ClassValue>)
    ensures forall s :: s in Kept(vs) ==> Name(s) in vs
    ensures forall v :: v in vs && Truthy(v) ==> v.name in Kept(vs)
  {
    if vs != [] {
      KeptNames(vs[1..]);
      assert forall v :: v in vs[1..] ==> v in vs;
      forall v | v in vs && Truthy(v) ensures v.name in Kept(vs) {
        if v != vs[0] {
          var i :| 0 <= i < |vs| && vs[i] == v;
          assert vs[1..][i - 1] == v;
        }
      }
    }
  }
}
