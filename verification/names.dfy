/** Capitalisation of the Pokémon names shown in the selection list.
    Upper-casing is restricted to the ASCII letters a-z. */
module Names {

  predicate IsLowerAscii(c: char) {
    'a' <= c <= 'z'
  }

  predicate IsUpperAscii(c: char) {
    'A' <= c <= 'Z'
  }

  /** Upper-cases one character: a-z map to A-Z, every other character is kept. */
  function UpperAscii(c: char): (u: char)
    ensures IsLowerAscii(c) ==> IsUpperAscii(u) && u as int + 32 == c as int
    ensures !IsLowerAscii(c) ==> u == c
    ensures !IsLowerAscii(u)
  {
    if IsLowerAscii(c) then (c as int - 32) as char else c
  }

  /** The name with its first character upper-cased and the rest kept as is;
      the empty name stays empty. */
  function Capitalize(name: string): (r: string)
    ensures |r| == |name|
    ensures |name| > 0 ==> r[0] == UpperAscii(name[0])
    ensures forall i :: 0 < i < |name| ==> r[i] == name[i]
  {
    if |name| == 0 then "" else [UpperAscii(name[0])] + name[1..]
  }

  /** Capitalises every name of a list, keeping the list's length and order. */
  function CapitalizeAll(names: seq<string>): (r: seq<string>)
    ensures |r| == |names|
    ensures forall i :: 0 <= i < |names| ==> r[i] == Capitalize(names[i])
  {
    if |names| == 0 then [] else [Capitalize(names[0])] + CapitalizeAll(names[1..])
  }

  /** A name is left unchanged exactly when it is empty or does not start with a-z. */
  lemma CapitalizeFixedIff(name: string)
    ensures Capitalize(name) == name <==> (|name| == 0 || !IsLowerAscii(name[0]))
  {
  }

  /** Capitalising twice is the same as capitalising once. */
  lemma CapitalizeIdempotent(name: string)
    ensures Capitalize(Capitalize(name)) == Capitalize(name)
  {
  }

  /** Capitalising a whole list twice is the same as capitalising it once. */
  lemma CapitalizeAllIdempotent(names: seq<string>)
    ensures CapitalizeAll(CapitalizeAll(names)) == CapitalizeAll(names)
  {
  }

  /** Capitalising a concatenation capitalises each part: the list map is order-preserving. */
  lemma {:induction false} CapitalizeAllAppend(a: seq<string>, b: seq<string>)
    ensures CapitalizeAll(a + b) == CapitalizeAll(a) + CapitalizeAll(b)
  {
    var l, r := CapitalizeAll(a + b), CapitalizeAll(a) + CapitalizeAll(b);
    assert |l| == |r|;
    forall i | 0 <= i < |l| ensures l[i] == r[i] {
      if i < |a| {
        assert (a + b)[i] == a[i];
      } else {
        assert (a + b)[i] == b[i - |a|];
      }
    }
  }
}
