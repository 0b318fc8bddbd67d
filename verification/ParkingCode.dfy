/** The next free code of a city's parkings: its letter and the smallest free number. */
module ParkingCode {
  import opened Text

  datatype City = Kaliningrad | Zelenogradsk | Pionersky | Baltiysk | Svetlogorsk

  function Prefix(city: City): string {
    match city
    case Kaliningrad => "K"
    case Zelenogradsk => "Z"
    case Pionersky => "P"
    case Baltiysk => "B"
    case Svetlogorsk => "S"
  }

  function Digit(n: int): char
    requires 0 <= n < 10
  {
    '0' + n as char
  }

  /** String(n) */
  function Decimal(n: nat): string {
    if n < 10 then [Digit(n)] else Decimal(n / 10) + [Digit(n % 10)]
  }

  /** .padStart(2, "0") */
  function Padded(n: nat): string {
    if n < 10 then "0" + Decimal(n) else Decimal(n)
  }

  function Code(city: City, n: nat): string { Prefix(city) + "-" + Padded(n) }

  // ---------- different numbers have different codes ----------

  function Number(s: string): int {
    if s == "" then 0 else Number(s[..|s| - 1]) * 10 + (s[|s| - 1] as int - '0' as int)
  }

  lemma {:induction false} NumberOfDecimal(n: nat)
    ensures Number(Decimal(n)) == n
    ensures forall i :: 0 <= i < |Decimal(n)| ==> '0' <= Decimal(n)[i] <= '9'
  {
    if n >= 10 {
      NumberOfDecimal(n / 10);
      assert Decimal(n)[..|Decimal(n)| - 1] == Decimal(n / 10);
    } else {
      assert Decimal(n)[..0] == "";
    }
  }

  lemma NumberOfPadded(n: nat)
    ensures Number(Padded(n)) == n
    ensures forall i :: 0 <= i < |Padded(n)| ==> '0' <= Padded(n)[i] <= '9'
  {
    NumberOfDecimal(n);
    if n < 10 {
      assert Padded(n)[..1] == "0" && "0"[..0] == "";
    }
  }

  lemma CodesDiffer(city: City, n: nat, m: nat)
    requires Code(city, n) == Code(city, m)
    ensures n == m
  {
    NumberOfPadded(n);
    NumberOfPadded(m);
    assert Code(city, n)[2..] == Padded(n) && Code(city, m)[2..] == Padded(m);
  }

  /** How a code reads: the city's letter, a dash, and the number with at least two digits. */
  lemma CodeReads(city: City, n: nat)
    ensures
      var code := Code(city, n);
      && |code| >= 4 && code[1] == '-' && Number(code[2..]) == n
      && (city == Kaliningrad <==> code[0] == 'K') && (city == Zelenogradsk <==> code[0] == 'Z')
      && (city == Pionersky <==> code[0] == 'P') && (city == Baltiysk <==> code[0] == 'B')
      && (city == Svetlogorsk <==> code[0] == 'S')
      && (n < 100 ==> |code| == 4) && (n >= 100 ==> code[2] != '0')
  {
    NumberOfPadded(n);
    assert Code(city, n)[2..] == Padded(n);
    if n >= 10 { DecimalStarts(n); }
  }

  lemma {:induction false} DecimalStarts(n: nat)
    requires n > 0
    ensures Decimal(n)[0] != '0' && (n >= 10 ==> |Decimal(n)| >= 2) && (n < 100 ==> |Decimal(n)| <= 2)
  {
    if n >= 10 { DecimalStarts(n / 10); }
  }

  lemma CodeIsUpper(city: City, n: nat)
    ensures Upper(Code(city, n)) == Code(city, n)
  {
    NumberOfPadded(n);
    var code := Code(city, n);
    assert |code| == 2 + |Padded(n)| && forall i :: 2 <= i < |code| ==> code[i] == Padded(n)[i - 2];
    forall i | 0 <= i < |code|
      ensures UpperChar(code[i]) == code[i]
    {
    }
  }

  // ---------- a free number is found ----------

  function Taken(ids: seq<string>): set<string> {
    set i | 0 <= i < |ids| :: Upper(ids[i])
  }

  lemma {:induction false} FewTaken(ids: seq<string>)
    ensures |Taken(ids)| <= |ids|
  {
    if ids != [] {
      var front := ids[..|ids| - 1];
      FewTaken(front);
      assert Taken(ids) == Taken(front) + {Upper(ids[|ids| - 1])};
    }
  }

  function CodesBelow(city: City, n: nat): set<string> {
    set k: nat | 1 <= k < n :: Code(city, k)
  }

  lemma OneMoreCode(city: City, n: nat)
    requires n >= 1
    ensures CodesBelow(city, n + 1) == CodesBelow(city, n) + {Code(city, n)}
  {
    forall code
      ensures code in CodesBelow(city, n + 1) <==> code in CodesBelow(city, n) || code == Code(city, n)
    {
      if code in CodesBelow(city, n + 1) {
        var k: nat :| 1 <= k < n + 1 && code == Code(city, k);
        assert k == n || k < n;
      }
    }
  }

  lemma NewCode(city: City, n: nat)
    ensures Code(city, n) !in CodesBelow(city, n)
  {
    if Code(city, n) in CodesBelow(city, n) {
      var k: nat :| 1 <= k < n && Code(city, n) == Code(city, k);
      CodesDiffer(city, n, k);
      assert false;
    }
  }

  lemma {:induction false} CodesCounted(city: City, n: nat)
    requires n >= 1
    ensures |CodesBelow(city, n)| == n - 1
  {
    if n == 1 {
      assert CodesBelow(city, n) == {};
    } else {
      CodesCounted(city, n - 1);
      OneMoreCode(city, n - 1);
      NewCode(city, n - 1);
    }
  }

  lemma {:induction false} SubsetIsSmaller(a: set<string>, b: set<string>)
    requires a <= b
    ensures |a| <= |b|
    decreases |a|
  {
    if a != {} {
      var x :| x in a;
      SubsetIsSmaller(a - {x}, b - {x});
    }
  }

  /** Pigeonhole: numbers that are all taken cannot outnumber the parkings. */
  lemma TakenRunIsShort(city: City, ids: seq<string>, n: nat)
    requires n >= 1 && forall k: nat :: 1 <= k < n ==> Code(city, k) in Taken(ids)
    ensures n <= |ids| + 1
  {
    FewTaken(ids);
    CodesCounted(city, n);
    SubsetIsSmaller(CodesBelow(city, n), Taken(ids));
  }

  predicate InUse(ids: seq<string>, code: string) {
    exists i :: 0 <= i < |ids| && Upper(ids[i]) == Upper(code)
  }

  /** For any list of ids the search ends, after at most one candidate more than there are ids,
      with the smallest number whose code nobody uses, in whatever case the ids are written. */
  method NextParkingCode(city: City, ids: seq<string>) returns (code: string)
    ensures exists n: nat :: 1 <= n <= |ids| + 1 && code == Code(city, n)
                             && !InUse(ids, code)
                             && forall k: nat :: 1 <= k < n ==> InUse(ids, Code(city, k))
  {
    var n: nat := 1;
    TakenRunIsShort(city, ids, n);
    while Code(city, n) in Taken(ids)
      invariant 1 <= n <= |ids| + 1
      invariant forall k: nat :: 1 <= k < n ==> Code(city, k) in Taken(ids)
      decreases |ids| + 1 - n
    {
      n := n + 1;
      TakenRunIsShort(city, ids, n);
    }
    code := Code(city, n);
    forall k: nat
      ensures Code(city, k) in Taken(ids) <==> InUse(ids, Code(city, k))
    {
      CodeIsUpper(city, k);
    }
  }
}
