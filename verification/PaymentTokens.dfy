/** Recurring-charge tokens at rest: how they are sealed and opened, and the backfill that seals
    the rows written before.

    The cipher, the keyed hash and UTF-8 are parameters. What is assumed of them is `Lawful`: that
    opening undoes sealing, that a tag has its 16 bytes, and that decoding a text undoes encoding it. */
module PaymentTokens {
  import opened Base64
  import opened Options

  const PREFIX: string := "v1:"
  const IV_LEN: nat := 12
  const TAG_LEN: nat := 16

  datatype Sealed = Sealed(ciphertext: seq<Byte>, tag: seq<Byte>)

  datatype Crypto = Crypto(
    utf8: string -> seq<Byte>, text: seq<Byte> -> string,
    encrypt: (seq<Byte>, seq<Byte>) -> Sealed,
    decrypt: (seq<Byte>, Sealed) -> Option<seq<Byte>>,
    mac: string -> string)

  /** The laws assumed of the parameters. */
  ghost predicate Lawful(c: Crypto) {
    && (forall s :: c.text(c.utf8(s)) == s)
    && (forall iv, plain :: |c.encrypt(iv, plain).tag| == TAG_LEN)
    && (forall iv, plain :: c.decrypt(iv, c.encrypt(iv, plain)) == Some(plain))
  }

  function EncryptToken(c: Crypto, iv: seq<Byte>, plain: string): string {
    var s := c.encrypt(iv, c.utf8(plain));
    PREFIX + Encode(iv + s.tag + s.ciphertext)
  }

  predicate Encrypted(stored: string) { PREFIX <= stored }

  datatype Reading = Absent | Token(plain: string) | Throws

  function DecryptToken(c: Crypto, stored: Option<string>): Reading {
    if stored.None? || stored.value == "" then Absent
    else if !Encrypted(stored.value) then Token(stored.value)
    else
      var decoded := Decode(stored.value[|PREFIX|..]);
      if decoded.None? || |decoded.value| < IV_LEN + TAG_LEN then Throws
      else
        var raw := decoded.value;
        var iv, tag, ciphertext := raw[..IV_LEN], raw[IV_LEN..IV_LEN + TAG_LEN], raw[IV_LEN + TAG_LEN..];
        var plain := c.decrypt(iv, Sealed(ciphertext, tag));
        if plain.None? then Throws else Token(c.text(plain.value))
  }

  function HashForLookup(c: Crypto, plain: string): string { c.mac(plain) }

  /** Decrypting undoes encrypting, for every string and every nonce. */
  lemma DecryptUndoesEncrypt(c: Crypto, iv: seq<Byte>, plain: string)
    requires Lawful(c) && |iv| == IV_LEN
    ensures Encrypted(EncryptToken(c, iv, plain))
    ensures DecryptToken(c, Some(EncryptToken(c, iv, plain))) == Token(plain)
  {
    var s := c.encrypt(iv, c.utf8(plain));
    var raw := iv + s.tag + s.ciphertext;
    var stored := EncryptToken(c, iv, plain);
    assert |s.tag| == TAG_LEN;
    assert stored[|PREFIX|..] == Encode(raw);
    DecodeUndoesEncode(raw);
    Slices(iv, s.tag, s.ciphertext);
    assert c.decrypt(iv, s) == Some(c.utf8(plain));
    assert Sealed(s.ciphertext, s.tag) == s;
  }

  /** What reading a stored token comes to: nothing for an absent one; itself for one stored as it
      is; and for a sealed one what the cipher opens, which throws whenever the text is not base 64,
      is too short, or fails its authentication. */
  lemma ReadingIs(c: Crypto, stored: Option<string>, iv: seq<Byte>, tag: seq<Byte>, ciphertext: seq<Byte>)
    ensures DecryptToken(c, None) == Absent && DecryptToken(c, Some("")) == Absent
    ensures stored.Some? && stored.value != "" && !("v1:" <= stored.value) ==>
      DecryptToken(c, stored) == Token(stored.value)
    ensures stored.Some? && "v1:" <= stored.value ==>
      var raw := Decode(stored.value[3..]);
      && (raw == None ==> DecryptToken(c, stored) == Throws)
      && (raw.Some? && |raw.value| < 28 ==> DecryptToken(c, stored) == Throws)
      && (|iv| == 12 && |tag| == 16 && raw == Some(iv + tag + ciphertext) ==>
            var plain := c.decrypt(iv, Sealed(ciphertext, tag));
            DecryptToken(c, stored) == if plain.Some? then Token(c.text(plain.value)) else Throws)
  {
    if |iv| == 12 && |tag| == 16 { Slices(iv, tag, ciphertext); }
  }

  lemma Slices(iv: seq<Byte>, tag: seq<Byte>, ciphertext: seq<Byte>)
    requires |iv| == IV_LEN && |tag| == TAG_LEN
    ensures
      var raw := iv + tag + ciphertext;
      raw[..IV_LEN] == iv && raw[IV_LEN..IV_LEN + TAG_LEN] == tag && raw[IV_LEN + TAG_LEN..] == ciphertext
  {
  }

  // ---------- the backfill ----------

  datatype Method = Method(
    id: int, rebillId: Option<string>, rebillIdHash: Option<string>,
    accountToken: Option<string>, accountTokenHash: Option<string>)

  /** A token still stored as it is. */
  predicate Plain(stored: Option<string>) {
    stored.Some? && stored.value != "" && !Encrypted(stored.value)
  }

  /** The WHERE clause of the backfill's query. */
  predicate Selected(m: Method) { Plain(m.rebillId) || Plain(m.accountToken) }

  /** COALESCE(new, old) */
  function Coalesce(written: Option<string>, previous: Option<string>): Option<string> {
    if written.Some? then written else previous
  }

  /** Two nonces for the tokens of one row, drawn for the occasion. */
  datatype Nonces = Nonces(rebill: seq<Byte>, account: seq<Byte>)

  predicate ProperNonces(n: Nonces) { |n.rebill| == IV_LEN && |n.account| == IV_LEN }

  function Backfilled(c: Crypto, n: Nonces, m: Method): Method {
    var rebill := if Plain(m.rebillId) then Some(EncryptToken(c, n.rebill, m.rebillId.value)) else m.rebillId;
    var account :=
      if Plain(m.accountToken) then Some(EncryptToken(c, n.account, m.accountToken.value)) else m.accountToken;
    m.(rebillId := rebill,
       rebillIdHash := if Plain(m.rebillId) then Some(HashForLookup(c, m.rebillId.value)) else m.rebillIdHash,
       accountToken := account,
       accountTokenHash :=
         if Plain(m.accountToken) then Some(HashForLookup(c, m.accountToken.value)) else m.accountTokenHash)
  }

  /** How many of the first `n` rows the query selects. */
  function CountSelected(rows: seq<Method>, n: nat): nat
    requires n <= |rows|
  {
    if n == 0 then 0 else CountSelected(rows, n - 1) + if Selected(rows[n - 1]) then 1 else 0
  }

  /** The count reported is the number of rows with a token still to seal. */
  lemma {:induction false} CountIsOfRows(rows: seq<Method>, n: nat)
    requires n <= |rows|
    ensures CountSelected(rows, n) == |set i | 0 <= i < n && (Plain(rows[i].rebillId) || Plain(rows[i].accountToken))|
  {
    var chosen := set i | 0 <= i < n && (Plain(rows[i].rebillId) || Plain(rows[i].accountToken));
    if n == 0 {
      assert chosen == {};
    } else {
      CountIsOfRows(rows, n - 1);
      var front := set i | 0 <= i < n - 1 && (Plain(rows[i].rebillId) || Plain(rows[i].accountToken));
      assert chosen == front + if Selected(rows[n - 1]) then {n - 1} else {};
    }
  }

  lemma UnselectedStays(c: Crypto, n: Nonces, m: Method)
    requires !Selected(m)
    ensures Backfilled(c, n, m) == m
  {
  }

  /** The columns one row's UPDATE writes. */
  method EncryptRow(c: Crypto, n: Nonces, row: Method) returns (after: Method)
    ensures after == Backfilled(c, n, row)
  {
    var rebillPlain := if Plain(row.rebillId) then row.rebillId else None;
    var accountPlain := if Plain(row.accountToken) then row.accountToken else None;
    var rebill, rebillHash, account, accountHash := None, None, None, None;
    if rebillPlain.Some? {
      rebill := Some(EncryptToken(c, n.rebill, rebillPlain.value));
      rebillHash := Some(HashForLookup(c, rebillPlain.value));
    }
    if accountPlain.Some? {
      account := Some(EncryptToken(c, n.account, accountPlain.value));
      accountHash := Some(HashForLookup(c, accountPlain.value));
    }
    after := row.(rebillId := Coalesce(rebill, row.rebillId),
                  rebillIdHash := Coalesce(rebillHash, row.rebillIdHash),
                  accountToken := Coalesce(account, row.accountToken),
                  accountTokenHash := Coalesce(accountHash, row.accountTokenHash));
  }

  class PaymentMethods {
    var rows: seq<Method>

    method EncryptLegacyPaymentTokens(c: Crypto, nonces: seq<Nonces>) returns (migrated: nat)
      requires |nonces| == |rows|
      modifies this
      ensures |rows| == |old(rows)|
      ensures forall i :: 0 <= i < |rows| ==> rows[i] == Backfilled(c, nonces[i], old(rows)[i])
      ensures migrated == CountSelected(old(rows), |old(rows)|)
    {
      var selected := rows;
      migrated := 0;
      for i := 0 to |selected|
        invariant |rows| == |selected|
        invariant forall k :: 0 <= k < i ==> rows[k] == Backfilled(c, nonces[k], selected[k])
        invariant forall k :: i <= k < |rows| ==> rows[k] == selected[k]
        invariant migrated == CountSelected(selected, i)
      {
        var row := selected[i];
        if !Selected(row) {
          UnselectedStays(c, nonces[i], row);
          continue;
        }
        var after := EncryptRow(c, nonces[i], row);
        rows := rows[i := after];
        migrated := migrated + 1;
      }
    }
  }

  /** A hash column that belongs to its token. */
  predicate HashFits(c: Crypto, stored: Option<string>, hash: Option<string>) {
    DecryptToken(c, stored).Token? ==> hash == Some(HashForLookup(c, DecryptToken(c, stored).plain))
  }

  lemma ColumnKept(c: Crypto, iv: seq<Byte>, stored: Option<string>, hash: Option<string>)
    requires Lawful(c) && |iv| == IV_LEN
    ensures
      var after := if Plain(stored) then Some(EncryptToken(c, iv, stored.value)) else stored;
      var hashAfter := if Plain(stored) then Some(HashForLookup(c, stored.value)) else hash;
      && DecryptToken(c, after) == DecryptToken(c, stored) && !Plain(after)
      && (HashFits(c, after, hashAfter) <==> Plain(stored) || HashFits(c, stored, hash))
  {
    if Plain(stored) {
      DecryptUndoesEncrypt(c, iv, stored.value);
    }
  }

  /** Whatever a row holds, one token sealed and the other not included: the backfill changes no
      token's reading, gives each token it seals the matching lookup hash, and leaves nothing for
      a later run to select. */
  lemma BackfillKeepsTokens(c: Crypto, n: Nonces, m: Method)
    requires Lawful(c) && ProperNonces(n)
    ensures
      var after := Backfilled(c, n, m);
      && after.id == m.id && !Selected(after)
      && DecryptToken(c, after.rebillId) == DecryptToken(c, m.rebillId)
      && DecryptToken(c, after.accountToken) == DecryptToken(c, m.accountToken)
      && (HashFits(c, after.rebillId, after.rebillIdHash)
          <==> Plain(m.rebillId) || HashFits(c, m.rebillId, m.rebillIdHash))
      && (HashFits(c, after.accountToken, after.accountTokenHash)
          <==> Plain(m.accountToken) || HashFits(c, m.accountToken, m.accountTokenHash))
      && (Plain(m.rebillId) ==> after.rebillIdHash == Some(c.mac(m.rebillId.value)))
      && (Plain(m.accountToken) ==> after.accountTokenHash == Some(c.mac(m.accountToken.value)))
  {
    ColumnKept(c, n.rebill, m.rebillId, m.rebillIdHash);
    ColumnKept(c, n.account, m.accountToken, m.accountTokenHash);
  }

  /** A second run, with whatever nonces, changes no row; and so does a run over a row that has
      nothing to seal. */
  lemma BackfillRunsOnce(c: Crypto, n: Nonces, again: Nonces, m: Method)
    requires Lawful(c) && ProperNonces(n)
    ensures Backfilled(c, again, Backfilled(c, n, m)) == Backfilled(c, n, m)
    ensures Backfilled(c, n, m) == m <==> !Selected(m)
  {
    BackfillKeepsTokens(c, n, m);
  }
}
