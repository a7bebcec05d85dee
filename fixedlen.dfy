/** FixedLenStringArray<N>: a vector of N-character arrays, each holding a
    string truncated to N - 1 characters and terminated by NUL. */
module FixedLen {
  import opened Wrappers

  const NUL: char := '\0'

  /** The characters before the first NUL, or all of them: what strlen
      counts and what std::string(const char*) copies. */
  function CString(s: string): (r: string)
    ensures |r| <= |s| && r == s[..|r|]
    ensures forall i :: 0 <= i < |r| ==> r[i] != NUL
    ensures |r| < |s| ==> s[|r|] == NUL
    decreases |s|
  {
    if s == [] || s[0] == NUL then [] else [s[0]] + CString(s[1..])
  }

  function Zeros(n: nat): (z: string)
    ensures |z| == n && forall i :: 0 <= i < n ==> z[i] == NUL
  {
    seq(n, _ => NUL)
  }

  function Min(a: nat, b: nat): nat { if a < b then a else b }

  /** An N-character array that received `length` characters of `src`
      over zero-filled storage, the terminating NUL included. */
  function Entry(n: nat, src: string, length: nat): (e: string)
    requires length < n && length <= |src|
    ensures |e| == n && e[..length] == src[..length] && e[length] == NUL
  {
    src[..length] + Zeros(n - length)
  }

  /** What the iterator constructor stores: min(N - 1, strlen(src))
      characters of src.c_str(). */
  function EntryFromCStr(n: nat, src: string): (e: string)
    requires n > 0
  {
    Entry(n, src, Min(n - 1, |CString(src)|))
  }

  /** What push_back(std::string) stores: min(N - 1, src.length())
      characters, so a NUL inside src is copied too. */
  function EntryFromString(n: nat, src: string): (e: string)
    requires n > 0
  {
    Entry(n, src, Min(n - 1, |src|))
  }

  lemma {:induction false} CStringOfPrefix(s: string, k: nat)
    requires k <= |s|
    ensures CString(s[..k]) == CString(s)[..Min(k, |CString(s)|)]
    decreases k
  {
    if k > 0 && s[0] != NUL {
      assert s[..k][1..] == s[1..][..k - 1];
      CStringOfPrefix(s[1..], k - 1);
    }
  }

  lemma CStringOfPadded(s: string, n: nat)
    ensures CString(s + Zeros(n)) == CString(s)
  {
    var t := s + Zeros(n);
    var r := CString(s);
    if |r| == |s| {
      assert t[..|s|] == s;
      if n > 0 {
        assert t[|s|] == NUL;
      }
      CStringOfPrefix(t, |s|);
      assert |CString(t)| >= |s| ==> CString(t)[..|s|] == s;
    } else {
      assert t[..|s|] == s;
      CStringOfPrefix(t, |s|);
    }
  }

  lemma EntryFromCStrReadsBack(n: nat, src: string)
    requires n > 0
    ensures CString(EntryFromCStr(n, src)) == CString(src)[..Min(n - 1, |CString(src)|)]
  {
    var l := Min(n - 1, |CString(src)|);
    CStringOfPadded(src[..l], n - l);
    CStringOfPrefix(src, l);
  }

  lemma EntryFromStringReadsBack(n: nat, src: string)
    requires n > 0
    ensures CString(EntryFromString(n, src)) == CString(src)[..Min(n - 1, |CString(src)|)]
  {
    var l := Min(n - 1, |src|);
    CStringOfPadded(src[..l], n - l);
    CStringOfPrefix(src, l);
  }

  /** Both ways of storing a string read back as the same C string: the
      string up to its first NUL, cut to N - 1 characters. */
  lemma EntryReadsBack(n: nat, src: string)
    requires n > 0
    ensures CString(EntryFromCStr(n, src)) == CString(src)[..Min(n - 1, |CString(src)|)]
    ensures CString(EntryFromString(n, src)) == CString(src)[..Min(n - 1, |CString(src)|)]
  {
    EntryFromCStrReadsBack(n, src);
    EntryFromStringReadsBack(n, src);
  }

  /** getString(push_back(s)) == s for a NUL-free s shorter than N. */
  lemma PushBackRoundTrip(n: nat, src: string)
    requires n > 0 && |src| < n && forall i :: 0 <= i < |src| ==> src[i] != NUL
    ensures CString(EntryFromString(n, src)) == src
  {
    EntryReadsBack(n, src);
  }

  class FixedLenStringArray {
    /** The template parameter N. */
    const n: nat
    var datavec: seq<string>

    ghost predicate Valid()
      reads this
    {
      n > 0 && forall i :: 0 <= i < |datavec| ==> |datavec[i]| == n
    }

    /** The default constructor: no entries. */
    constructor (n: nat)
      requires n > 0
      ensures this.n == n && datavec == [] && Valid()
    {
      this.n := n;
      datavec := [];
    }

    /** FixedLenStringArray(const char array[][N], length): the first
        `length` arrays of the buffer, copied as they are. */
    constructor FromRaw(n: nat, buffer: seq<string>, length: nat)
      requires n > 0 && length <= |buffer|
      requires forall i :: 0 <= i < |buffer| ==> |buffer[i]| == n
      ensures this.n == n && datavec == buffer[..length] && Valid()
    {
      this.n := n;
      datavec := buffer[..length];
    }

    /** FixedLenStringArray(iter_begin, iter_end): resize to the number of
        strings, then copy each one's C string, truncated, into its entry. */
    constructor FromRange(n: nat, strings: seq<string>)
      requires n > 0
      ensures this.n == n && Valid()
      ensures |datavec| == |strings|
      ensures forall i :: 0 <= i < |strings| ==> datavec[i] == EntryFromCStr(n, strings[i])
    {
      this.n := n;
      datavec := seq(|strings|, _ => Zeros(n));
      new;
      var k := 0;
      while k < |strings|
        invariant 0 <= k <= |strings| == |datavec|
        invariant forall i :: 0 <= i < k ==> datavec[i] == EntryFromCStr(n, strings[i])
        invariant forall i :: k <= i < |datavec| ==> datavec[i] == Zeros(n)
      {
        datavec := datavec[k := EntryFromCStr(n, strings[k])];
        k := k + 1;
      }
    }

    /** FixedLenStringArray(const std::vector<std::string>&) as written: it
        forwards &vec.front() and &vec.back(), a range that stops before the
        last string. */
    constructor FromVectorAsWritten(n: nat, vec: seq<string>)
      requires n > 0 && |vec| > 0
      ensures this.n == n && Valid()
      ensures |datavec| == |vec| - 1
      ensures forall i :: 0 <= i < |vec| - 1 ==> datavec[i] == EntryFromCStr(n, vec[i])
    {
      this.n := n;
      var strings := vec[..|vec| - 1];
      datavec := seq(|strings|, i requires 0 <= i < |strings| => EntryFromCStr(n, strings[i]));
    }

    /** The vector constructor with the range it evidently means,
        [vec.data(), vec.data() + vec.size()): one entry per string. */
    constructor FromVector(n: nat, vec: seq<string>)
      requires n > 0
      ensures this.n == n && Valid()
      ensures |datavec| == |vec|
      ensures forall i :: 0 <= i < |vec| ==> datavec[i] == EntryFromCStr(n, vec[i])
    {
      this.n := n;
      datavec := seq(|vec|, i requires 0 <= i < |vec| => EntryFromCStr(n, vec[i]));
    }

    /** FixedLenStringArray(initializer_list): the whole list. */
    constructor FromInitList(n: nat, list: seq<string>)
      requires n > 0
      ensures this.n == n && Valid()
      ensures |datavec| == |list|
      ensures forall i :: 0 <= i < |list| ==> datavec[i] == EntryFromCStr(n, list[i])
    {
      this.n := n;
      datavec := seq(|list|, i requires 0 <= i < |list| => EntryFromCStr(n, list[i]));
    }

    /** push_back(const std::string&). */
    method PushBack(src: string)
      requires Valid()
      modifies this`datavec
      ensures Valid()
      ensures datavec == old(datavec) + [EntryFromString(n, src)]
    {
      datavec := datavec + [EntryFromString(n, src)];
    }

    /** push_back(const std::array<char, N>&): all N characters. */
    method PushBackArray(src: string)
      requires Valid() && |src| == n
      modifies this`datavec
      ensures Valid()
      ensures datavec == old(datavec) + [src]
    {
      datavec := datavec + [src];
    }

    /** getString(i): entry i up to its first NUL. */
    function GetString(i: nat): (s: string)
      reads this
      requires i < |datavec|
      ensures s == CString(datavec[i])
    {
      CString(datavec[i])
    }

    function Size(): (k: nat)
      reads this
      ensures k == |datavec|
    {
      |datavec|
    }

    function IsEmpty(): (b: bool)
      reads this
      ensures b <==> Size() == 0
    {
      |datavec| == 0
    }

    /** operator[](i): the characters of entry i. */
    function Get(i: nat): (e: string)
      reads this
      requires i < |datavec|
      ensures e == datavec[i]
    {
      datavec[i]
    }

    /** at(i): entry i, or std::out_of_range past the end. */
    function At(i: nat): (r: Result<string>)
      reads this
      ensures i < |datavec| ==> r == Ok(datavec[i])
      ensures i >= |datavec| ==> Raises(r, OutOfRange)
    {
      if i < |datavec| then Ok(datavec[i]) else Throw(OutOfRange, "vector::_M_range_check")
    }

    function Front(): (e: string)
      reads this
      requires |datavec| > 0
      ensures e == Get(0)
    {
      datavec[0]
    }

    function Back(): (e: string)
      reads this
      requires |datavec| > 0
      ensures e == Get(|datavec| - 1)
    {
      datavec[|datavec| - 1]
    }

    /** resize(m): the first min(old size, m) entries stay, new entries are
        zero-filled arrays. */
    method Resize(m: nat)
      requires Valid()
      modifies this`datavec
      ensures Valid() && |datavec| == m
      ensures datavec[..Min(m, |old(datavec)|)] == old(datavec)[..Min(m, |old(datavec)|)]
      ensures forall i :: |old(datavec)| <= i < m ==> datavec[i] == Zeros(n)
    {
      if m <= |datavec| {
        datavec := datavec[..m];
      } else {
        datavec := datavec + seq(m - |datavec|, _ => Zeros(n));
      }
    }

    /** data()[k] = c: data() points at entry 0, so the write lands there. */
    method WriteData(k: nat, c: char)
      requires Valid() && |datavec| > 0 && k < n
      modifies this`datavec
      ensures Valid()
      ensures datavec == old(datavec)[0 := old(datavec)[0][k := c]]
    {
      datavec := datavec[0 := datavec[0][k := c]];
    }
  }

  /** Writing 'x' over the first character of "000" through data() gives
      "x00". */
  lemma WriteDataExample()
    ensures CString(EntryFromString(4, "000")[0 := 'x']) == "x00"
  {
    var e := EntryFromString(4, "000");
    assert e == "000" + [NUL];
    var w := e[0 := 'x'];
    assert w == ['x', '0', '0', NUL];
    assert w[1..] == ['0', '0', NUL];
    assert w[2..] == ['0', NUL];
    assert w[3..] == [NUL];
  }

  /** The vector constructor on {"0000", "1111"}: as written it keeps one
      string; with the intended range it keeps both, and reads "1111" back. */
  method VectorConstructorExample() returns (keptAsWritten: nat, kept: nat, second: string)
    ensures keptAsWritten == 1 && kept == 2 && second == "1111"
  {
    var vec := ["0000", "1111"];
    var a := new FixedLenStringArray.FromVectorAsWritten(10, vec);
    var b := new FixedLenStringArray.FromVector(10, vec);
    keptAsWritten := a.Size();
    kept := b.Size();
    second := b.GetString(1);
    PushBackRoundTrip(10, "1111");
    assert EntryFromCStr(10, "1111") == EntryFromString(10, "1111") by {
      EntryReadsBack(10, "1111");
      assert CString("1111") == "1111";
    }
  }
}
