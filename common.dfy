/** Types shared by the claim model: optional values, Sponge's tri-state,
    claim kinds, trust levels, player identifiers and block positions. */
module Common {

  /** Java's nullable references and `Optional` both become this. */
  datatype Option<+T> = None | Some(value: T) {
    function GetOr(default: T): (r: T)
      ensures Some? ==> r == value
      ensures None? ==> r == default
    {
      match this
      case Some(v) => v
      case None => default
    }
  }

  /** Sponge's `Tristate`. */
  datatype Tristate = True | False | Undefined

  /** The claim kinds of the plugin's `ClaimType` enum. */
  datatype ClaimType = Admin | Basic | Subdivision | Town | Wilderness

  /** The trust levels that carry a trust list (`TrustType` without NONE). */
  datatype TrustType = Accessor | Builder | Container | Manager

  /** The order in which `TrustType.values()` visits the levels that carry a list. */
  const AllTrustTypes: seq<TrustType> := [Accessor, Builder, Container, Manager]

  /** Every level appears in the visiting order, and only once. */
  lemma AllTrustTypesDistinct()
    ensures forall i, j :: 0 <= i < j < |AllTrustTypes| ==> AllTrustTypes[i] != AllTrustTypes[j]
    ensures forall t: TrustType :: t in AllTrustTypes
  {
    forall t: TrustType
      ensures t in AllTrustTypes
    {
      match t
      case Accessor => assert AllTrustTypes[0] == t;
      case Builder => assert AllTrustTypes[1] == t;
      case Container => assert AllTrustTypes[2] == t;
      case Manager => assert AllTrustTypes[3] == t;
    }
  }

  /** A player's UUID, compared by value; `text` is its lower-case
      `UUID.toString` spelling. */
  datatype Uuid = Uuid(text: string)

  predicate IsHexDigit(c: char)
  {
    '0' <= c <= '9' || 'a' <= c <= 'f' || 'A' <= c <= 'F'
  }

  /** The canonical spelling `UUID.fromString` accepts: 36 characters,
      hexadecimal digits of either case in groups of 8-4-4-4-12 separated
      by dashes. */
  predicate UuidSyntax(text: string)
  {
    |text| == 36 &&
    forall i :: 0 <= i < |text| ==>
      if i == 8 || i == 13 || i == 18 || i == 23 then text[i] == '-' else IsHexDigit(text[i])
  }

  /** Every string of a list is a canonical UUID spelling. */
  predicate AllUuidSyntax(strs: seq<string>)
  {
    forall j :: 0 <= j < |strs| ==> UuidSyntax(strs[j])
  }

  function LowerAll(s: string): (r: string)
    ensures |r| == |s| && forall i :: 0 <= i < |s| ==> r[i] == ToLowerAscii(s[i])
  {
    if s == [] then [] else [ToLowerAscii(s[0])] + LowerAll(s[1..])
  }

  /** `UUID.fromString` on a canonical spelling: the digits are read by
      value, so the case of a hex letter does not matter, and the UUID is
      kept in the lower-case form `toString` prints. */
  function UuidOf(text: string): Uuid
  {
    Uuid(LowerAll(text))
  }

  /** Printing a parsed UUID and parsing the print gives the same UUID, and
      the print is again a canonical spelling. */
  lemma UuidOfRoundTrip(text: string)
    requires UuidSyntax(text)
    ensures UuidSyntax(UuidOf(text).text)
    ensures UuidOf(UuidOf(text).text) == UuidOf(text)
  {
    var p := UuidOf(text).text;
    assert LowerAll(p) == p by {
      forall i | 0 <= i < |p| ensures LowerAll(p)[i] == p[i] {
        assert p[i] == ToLowerAscii(text[i]);
      }
    }
  }

  /** Two canonical spellings denote the same UUID exactly when they differ
      at most in the case of their hex letters. */
  lemma UuidOfIgnoresCase(a: string, b: string)
    requires UuidSyntax(a) && UuidSyntax(b)
    ensures UuidOf(a) == UuidOf(b) <==> EqualsIgnoreCase(a, b)
  {
    if EqualsIgnoreCase(a, b) {
      assert LowerAll(a) == LowerAll(b) by {
        forall i | 0 <= i < |a| ensures LowerAll(a)[i] == LowerAll(b)[i] {}
      }
    }
    if UuidOf(a) == UuidOf(b) {
      forall i | 0 <= i < |a| ensures ToLowerAscii(a[i]) == ToLowerAscii(b[i]) {
        assert LowerAll(a)[i] == LowerAll(b)[i];
      }
    }
  }

  /** A block position (flowpowered `Vector3i`). */
  datatype Vec3 = Vec3(x: int, y: int, z: int)

  /** Chat channels a border message can be sent on (Sponge `ChatTypes`). */
  datatype ChatType = Chat | System | ActionBar

  /** ASCII case folding (`Character.toLowerCase` on the ASCII letters). */
  function ToLowerAscii(c: char): char
  {
    if 'A' <= c <= 'Z' then (c as int + 32) as char else c
  }

  /** `String.equalsIgnoreCase`, for ASCII text. */
  predicate EqualsIgnoreCase(a: string, b: string)
  {
    |a| == |b| && forall i :: 0 <= i < |a| ==> ToLowerAscii(a[i]) == ToLowerAscii(b[i])
  }

  /** The position of the first occurrence of `x` in `s`. */
  function FirstIndex<T(==)>(s: seq<T>, x: T): (i: nat)
    requires x in s
    ensures i < |s| && s[i] == x && x !in s[..i]
  {
    if s[0] == x then 0
    else
      var j := FirstIndex(s[1..], x);
      assert s[..j + 1] == [s[0]] + s[1..][..j];
      1 + j
  }

  /** Java's `List.remove(Object)`: drops the first element equal to `x`,
      and nothing when there is none. */
  function RemoveFirst<T(==)>(s: seq<T>, x: T): (r: seq<T>)
    ensures x !in s ==> r == s
    ensures x in s ==> r == s[..FirstIndex(s, x)] + s[FirstIndex(s, x) + 1..]
  {
    if s == [] then []
    else if s[0] == x then s[1..]
    else
      var rest := RemoveFirst(s[1..], x);
      if x in s then
        var j := FirstIndex(s[1..], x);
        assert FirstIndex(s, x) == j + 1;
        ConsSplit(s, j);
        [s[0]] + rest
      else
        [s[0]] + rest
  }

  lemma ConsSplit<T>(s: seq<T>, j: nat)
    requires j + 1 < |s|
    ensures [s[0]] + (s[1..][..j] + s[1..][j + 1..]) == s[..j + 1] + s[j + 2..]
  {
  }

  /** Removing the first occurrence takes exactly one copy of `x` out of the
      list's contents, and nothing when `x` is absent. */
  lemma {:induction false} RemoveFirstContents<T>(s: seq<T>, x: T)
    ensures x in s ==> multiset(RemoveFirst(s, x)) == multiset(s) - multiset{x}
    ensures x !in s ==> multiset(RemoveFirst(s, x)) == multiset(s)
    ensures multiset(RemoveFirst(s, x))[x] == if x in s then multiset(s)[x] - 1 else 0
  {
    if x in s {
      var i := FirstIndex(s, x);
      assert s == s[..i] + [x] + s[i + 1..];
      assert multiset(s) == multiset(s[..i]) + multiset{x} + multiset(s[i + 1..]);
      assert multiset(RemoveFirst(s, x)) == multiset(s[..i]) + multiset(s[i + 1..]);
    } else {
      assert multiset(s)[x] == 0;
    }
  }
}
