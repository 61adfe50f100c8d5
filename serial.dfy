/** GenerateSerialNumber: a nine-character serial, four letters (Latin, or
    Cyrillic one time in a hundred), a dash and four digits. */
module Serial {

  const SerialLength: nat := 9
  const DashIndex: nat := 4

  /** IRobustRandom.Next(lo, hi) for a raw draw r: a value in [lo, hi). */
  function Next(lo: int, hi: int, r: nat): (v: int)
    requires lo < hi
    ensures lo <= v < hi
  {
    lo + r % (hi - lo)
  }

  /** The raw draw behind the i-th Next call; a missing draw reads as 0. */
  function DrawAt(draws: seq<nat>, i: nat): nat
  {
    if i < |draws| then draws[i] else 0
  }

  /** The half-open range the character at index i is drawn from. */
  function Low(cyrillic: bool, i: nat): int
  {
    if i < DashIndex then (if cyrillic then 0x0410 else 0x41) else 0x30
  }

  function High(cyrillic: bool, i: nat): int
  {
    if i < DashIndex then (if cyrillic then 0x0430 else 0x5B) else 0x3A
  }

  predicate IsLatinCapital(c: char) { 'A' <= c <= 'Z' }
  predicate IsCyrillicCapital(c: char) { 'А' <= c <= 'Я' }
  predicate IsDigit(c: char) { '0' <= c <= '9' }

  /** The shape of every serial: nine characters, a dash at index 4, four
      capitals of one alphabet before it and four digits after it. */
  predicate ValidSerial(s: string)
  {
    && |s| == SerialLength
    && s[DashIndex] == '-'
    && ((forall i :: 0 <= i < DashIndex ==> IsLatinCapital(s[i]))
        || (forall i :: 0 <= i < DashIndex ==> IsCyrillicCapital(s[i])))
    && (forall i :: DashIndex < i < SerialLength ==> IsDigit(s[i]))
  }

  /** The character at index i (not the dash) for its draw. The letters use
      draws 0..3 and the digits draws 4..7. */
  function CharAt(cyrillic: bool, draws: seq<nat>, i: nat): char
    requires i != DashIndex
  {
    var r := DrawAt(draws, if i < DashIndex then i else i - 1);
    Next(Low(cyrillic, i), High(cyrillic, i), r) as char
  }

  /** GenerateSerialNumber: fill a nine-character buffer, the dash first, then
      the letters, then the digits. */
  method GenerateSerial(cyrillic: bool, draws: seq<nat>) returns (s: string)
    ensures ValidSerial(s)
    ensures forall i :: 0 <= i < SerialLength && i != DashIndex ==> s[i] == CharAt(cyrillic, draws, i)
    ensures cyrillic ==> forall i :: 0 <= i < DashIndex ==> IsCyrillicCapital(s[i])
    ensures !cyrillic ==> forall i :: 0 <= i < DashIndex ==> IsLatinCapital(s[i])
  {
    var data := new char[SerialLength];
    data[DashIndex] := '-';
    var i := 0;
    while i < DashIndex
      invariant 0 <= i <= DashIndex
      invariant data[DashIndex] == '-'
      invariant forall j :: 0 <= j < i ==> data[j] == CharAt(cyrillic, draws, j)
    {
      if cyrillic {
        data[i] := Next(0x0410, 0x0430, DrawAt(draws, i)) as char;
      } else {
        data[i] := Next(0x41, 0x5B, DrawAt(draws, i)) as char;
      }
      i := i + 1;
    }
    i := DashIndex + 1;
    while i < SerialLength
      invariant DashIndex + 1 <= i <= SerialLength
      invariant data[DashIndex] == '-'
      invariant forall j :: 0 <= j < DashIndex ==> data[j] == CharAt(cyrillic, draws, j)
      invariant forall j :: DashIndex < j < i ==> data[j] == CharAt(cyrillic, draws, j)
    {
      data[i] := Next(0x30, 0x3A, DrawAt(draws, i - 1)) as char;
      i := i + 1;
    }
    s := data[..];
  }

  /** The draw that makes Next(lo, _, _) return c. */
  function Offset(c: char, lo: int): nat
  {
    if c as int < lo then 0 else c as int - lo
  }

  /** The eight draws that reproduce serial s. */
  function DrawsFor(s: string, cyrillic: bool): (draws: seq<nat>)
    requires |s| == SerialLength
    ensures |draws| == SerialLength - 1
  {
    seq(SerialLength - 1, j requires 0 <= j < SerialLength - 1 => DrawFor(s, cyrillic, j))
  }

  function DrawFor(s: string, cyrillic: bool, j: nat): nat
    requires |s| == SerialLength && j < SerialLength - 1
  {
    var i := if j < DashIndex then j else j + 1;
    Offset(s[i], Low(cyrillic, i))
  }

  /** Every serial of the valid shape is generated by some draws, so the
      generator produces exactly the valid serials. */
  lemma SerialReachable(s: string)
    requires ValidSerial(s)
    ensures var cyrillic := IsCyrillicCapital(s[0]);
      forall i :: 0 <= i < SerialLength && i != DashIndex ==> CharAt(cyrillic, DrawsFor(s, cyrillic), i) == s[i]
  {
    var cyrillic := IsCyrillicCapital(s[0]);
    var draws := DrawsFor(s, cyrillic);
    if !cyrillic {
      assert !IsCyrillicCapital(s[0]);
      assert forall i :: 0 <= i < DashIndex ==> IsLatinCapital(s[i]);
    }
    forall i | 0 <= i < SerialLength && i != DashIndex
      ensures CharAt(cyrillic, draws, i) == s[i]
    {
      var lo, hi := Low(cyrillic, i), High(cyrillic, i);
      assert lo <= s[i] as int < hi;
      assert DrawAt(draws, if i < DashIndex then i else i - 1) == s[i] as int - lo;
    }
  }
}
