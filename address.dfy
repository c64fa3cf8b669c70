/** The postal address value object and Java's String.trim, which its
    compact constructor applies to every field. */
module Addresses {
  import opened Common

  /** String.trim removes every leading and trailing character whose code
      is at most that of the space. */
  predicate IsBlank(c: char)
  {
    c <= ' '
  }

  predicate AllBlank(s: string)
  {
    forall k :: 0 <= k < |s| ==> IsBlank(s[k])
  }

  /** No blank character at either end. */
  predicate IsTrimmed(s: string)
  {
    s == [] || (!IsBlank(s[0]) && !IsBlank(s[|s| - 1]))
  }

  function TrimStart(s: string): string
  {
    if s != [] && IsBlank(s[0]) then TrimStart(s[1..]) else s
  }

  function TrimEnd(s: string): string
  {
    if s != [] && IsBlank(s[|s| - 1]) then TrimEnd(s[..|s| - 1]) else s
  }

  function Trim(s: string): string
  {
    TrimEnd(TrimStart(s))
  }

  /** TrimStart drops a blank prefix and keeps the rest, which starts with a
      character that is not blank. */
  lemma {:induction false} TrimStartDrops(s: string)
    ensures |TrimStart(s)| <= |s| && TrimStart(s) == s[|s| - |TrimStart(s)|..]
    ensures AllBlank(s[..|s| - |TrimStart(s)|])
    ensures TrimStart(s) == [] || !IsBlank(TrimStart(s)[0])
  {
    if s != [] && IsBlank(s[0]) {
      TrimStartDrops(s[1..]);
      var n := |s| - |TrimStart(s)|;
      assert s[..n] == [s[0]] + s[1..][..n - 1];
    }
  }

  /** TrimEnd drops a blank suffix and keeps the rest, which ends with a
      character that is not blank. */
  lemma {:induction false} TrimEndDrops(s: string)
    ensures |TrimEnd(s)| <= |s| && TrimEnd(s) == s[..|TrimEnd(s)|]
    ensures AllBlank(s[|TrimEnd(s)|..])
    ensures TrimEnd(s) == [] || !IsBlank(TrimEnd(s)[|TrimEnd(s)| - 1])
  {
    if s != [] && IsBlank(s[|s| - 1]) {
      var p := s[..|s| - 1];
      TrimEndDrops(p);
      var n := |TrimEnd(s)|;
      assert s[n..] == p[n..] + [s[|s| - 1]];
    }
  }

  /** The result of trim is a slice of its input with only blanks cut from
      either end, and it has no blank at either end. */
  lemma TrimIsSlice(s: string)
    ensures IsTrimmed(Trim(s))
    ensures exists i, j :: 0 <= i <= j <= |s| && Trim(s) == s[i..j] && AllBlank(s[..i]) && AllBlank(s[j..])
  {
    var u := TrimStart(s);
    TrimStartDrops(s);
    TrimEndDrops(u);
    var i := |s| - |u|;
    var j := i + |Trim(s)|;
    assert Trim(s) == s[i..j];
    assert s[j..] == u[|Trim(s)|..];
    if Trim(s) != [] {
      assert Trim(s)[0] == u[0];
    }
  }

  /** Trimming twice gives what trimming once gives. */
  lemma TrimIdempotent(s: string)
    ensures Trim(Trim(s)) == Trim(s)
  {
    TrimIsSlice(s);
    TrimmedIsFixed(Trim(s));
  }

  /** A string with no blank at either end is left as it is. */
  lemma TrimmedIsFixed(s: string)
    requires IsTrimmed(s)
    ensures Trim(s) == s
  {
  }

  /** A string of blanks only, the empty string among them, trims to "". */
  lemma {:induction false} TrimAllBlank(s: string)
    requires AllBlank(s)
    ensures Trim(s) == ""
  {
    if s != [] {
      assert AllBlank(s[1..]);
      TrimAllBlank(s[1..]);
    }
  }

  /** A nullable field as the constructor stores it: null stays null. */
  function TrimField(f: Option<string>): Option<string>
  {
    if f.Some? then Some(Trim(f.value)) else None
  }

  /** A nullable field as the constructor would store it. */
  predicate IsTrimmedField(f: Option<string>)
  {
    f.None? || IsTrimmed(f.value)
  }

  lemma TrimFieldSpec(f: Option<string>)
    ensures f.None? <==> TrimField(f).None?
    ensures IsTrimmedField(TrimField(f))
    ensures f.Some? && AllBlank(f.value) ==> TrimField(f) == Some("")
    ensures TrimField(TrimField(f)) == TrimField(f)
  {
    if f.Some? {
      TrimIsSlice(f.value);
      TrimIdempotent(f.value);
      if AllBlank(f.value) {
        TrimAllBlank(f.value);
      }
    }
  }

  /** The record's six components; Java builds one only through its compact
      constructor, NewAddress. */
  datatype Address = Address(
    street: Option<string>, houseNumber: Option<string>, busNumber: Option<string>,
    postalCode: Option<string>, city: Option<string>, country: Option<string>)

  /** Every component is as the compact constructor leaves it. */
  predicate Normalised(a: Address)
  {
    IsTrimmedField(a.street) && IsTrimmedField(a.houseNumber) && IsTrimmedField(a.busNumber)
    && IsTrimmedField(a.postalCode) && IsTrimmedField(a.city) && IsTrimmedField(a.country)
  }

  /** The compact constructor: every non-null component is trimmed. */
  function NewAddress(street: Option<string>, houseNumber: Option<string>, busNumber: Option<string>,
                      postalCode: Option<string>, city: Option<string>, country: Option<string>): Address
  {
    Address(TrimField(street), TrimField(houseNumber), TrimField(busNumber),
            TrimField(postalCode), TrimField(city), TrimField(country))
  }

  /** Building a new record from the components of `a`. */
  function Rebuild(a: Address): Address
  {
    NewAddress(a.street, a.houseNumber, a.busNumber, a.postalCode, a.city, a.country)
  }

  /** What the constructor produces: null components stay null, the others
      are trimmed, and a blank component becomes "". */
  lemma NewAddressNormalises(street: Option<string>, houseNumber: Option<string>, busNumber: Option<string>,
                             postalCode: Option<string>, city: Option<string>, country: Option<string>)
    ensures Normalised(NewAddress(street, houseNumber, busNumber, postalCode, city, country))
    ensures NewAddress(street, houseNumber, busNumber, postalCode, city, country).street.None? <==> street.None?
    ensures street.Some? ==> NewAddress(street, houseNumber, busNumber, postalCode, city, country).street == Some(Trim(street.value))
    ensures street.Some? && AllBlank(street.value) ==>
              NewAddress(street, houseNumber, busNumber, postalCode, city, country).street == Some("")
  {
    TrimFieldSpec(street);
    TrimFieldSpec(houseNumber);
    TrimFieldSpec(busNumber);
    TrimFieldSpec(postalCode);
    TrimFieldSpec(city);
    TrimFieldSpec(country);
  }

  /** Rebuilding a normalised address gives an equal record. */
  lemma RebuildNormalised(a: Address)
    requires Normalised(a)
    ensures Rebuild(a) == a
  {
    if a.street.Some? { TrimmedIsFixed(a.street.value); }
    if a.houseNumber.Some? { TrimmedIsFixed(a.houseNumber.value); }
    if a.busNumber.Some? { TrimmedIsFixed(a.busNumber.value); }
    if a.postalCode.Some? { TrimmedIsFixed(a.postalCode.value); }
    if a.city.Some? { TrimmedIsFixed(a.city.value); }
    if a.country.Some? { TrimmedIsFixed(a.country.value); }
  }

  /** Rebuilding a built address gives an equal record: trimming is
      idempotent. */
  lemma RebuildIdempotent(street: Option<string>, houseNumber: Option<string>, busNumber: Option<string>,
                          postalCode: Option<string>, city: Option<string>, country: Option<string>)
    ensures Rebuild(NewAddress(street, houseNumber, busNumber, postalCode, city, country))
            == NewAddress(street, houseNumber, busNumber, postalCode, city, country)
  {
    NewAddressNormalises(street, houseNumber, busNumber, postalCode, city, country);
    RebuildNormalised(NewAddress(street, houseNumber, busNumber, postalCode, city, country));
  }
}
