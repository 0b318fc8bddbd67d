/** The string operations the source takes from its runtime, on ASCII letters. */
module Text {

  function UpperChar(c: char): char {
    if 'a' <= c <= 'z' then c - 'a' + 'A' else c
  }

  function LowerChar(c: char): char {
    if 'A' <= c <= 'Z' then c - 'A' + 'a' else c
  }

  function Upper(s: string): string {
    seq(|s|, i requires 0 <= i < |s| => UpperChar(s[i]))
  }

  function Lower(s: string): string {
    seq(|s|, i requires 0 <= i < |s| => LowerChar(s[i]))
  }

  function TrimLeft(s: string): string {
    if s != "" && s[0] in " \t\r\n" then TrimLeft(s[1..]) else s
  }

  function Trim(s: string): string {
    TrimRight(TrimLeft(s))
  }

  function TrimRight(s: string): string {
    if s != "" && s[|s| - 1] in " \t\r\n" then TrimRight(s[..|s| - 1]) else s
  }

  /** `status.trim().toUpperCase()`, applied to every acquirer status before it is compared. */
  function Normal(s: string): string {
    Upper(Trim(s))
  }

  // ---------- what these operations do ----------

  predicate Blank(s: string) {
    forall i :: 0 <= i < |s| ==> s[i] == ' ' || s[i] == '\t' || s[i] == '\r' || s[i] == '\n'
  }

  /** Text that neither begins nor ends with a blank. */
  predicate Stripped(s: string) { s == "" || (!Blank(s[..1]) && !Blank(s[|s| - 1..])) }

  lemma {:induction false} TrimLeftDrops(pre: string, rest: string)
    requires Blank(pre) && (rest == "" || !Blank(rest[..1]))
    ensures TrimLeft(pre + rest) == rest
    decreases |pre|
  {
    if pre == "" {
      assert pre + rest == rest;
      if rest != "" { assert rest[..1] == [rest[0]]; }
    } else {
      assert pre[0] in " \t\r\n";
      assert (pre + rest)[1..] == pre[1..] + rest;
      TrimLeftDrops(pre[1..], rest);
    }
  }

  lemma {:induction false} TrimRightDrops(rest: string, post: string)
    requires Blank(post) && (rest == "" || !Blank(rest[|rest| - 1..]))
    ensures TrimRight(rest + post) == rest
    decreases |post|
  {
    var all := rest + post;
    if post == "" {
      assert all == rest;
      if rest != "" { assert rest[|rest| - 1..] == [rest[|rest| - 1]]; }
    } else {
      assert all[|all| - 1] == post[|post| - 1];
      assert post[|post| - 1] in " \t\r\n";
      assert all[..|all| - 1] == rest + post[..|post| - 1];
      TrimRightDrops(rest, post[..|post| - 1]);
    }
  }

  /** Trimming drops the blanks around a text and nothing else. */
  lemma TrimDropsBlanks(pre: string, core: string, post: string)
    requires Blank(pre) && Blank(post) && Stripped(core)
    ensures Trim(pre + core + post) == core
  {
    if core == "" {
      assert pre + core + post == (pre + post) + "";
      TrimLeftDrops(pre + post, "");
    } else {
      assert pre + core + post == pre + (core + post);
      assert (core + post)[..1] == core[..1];
      TrimLeftDrops(pre, core + post);
      TrimRightDrops(core, post);
    }
  }

  /** The two cases differ in the letters alone. */
  lemma CaseLaws(s: string)
    ensures |Upper(s)| == |Lower(s)| == |s|
    ensures Lower(Upper(s)) == Lower(s) && Upper(Lower(s)) == Upper(s)
    ensures forall i :: 0 <= i < |s| ==> !('a' <= Upper(s)[i] <= 'z') && !('A' <= Lower(s)[i] <= 'Z')
    ensures forall i :: 0 <= i < |s| ==> Upper(s)[i] == s[i] || Lower(s)[i] == s[i]
  {
  }

  lemma CaseExamples()
    ensures Upper("confirmed, AZ az 09") == "CONFIRMED, AZ AZ 09"
    ensures Lower("CONFIRMED, AZ az 09") == "confirmed, az az 09"
  {
  }
}
