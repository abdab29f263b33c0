/** Identifiers, JavaScript numbers and the strings derived from a command id. */
module Text {

  datatype Option<+T> = None | Some(value: T)

  datatype Result<+T, +E> = Ok(value: T) | Denied(reason: E)

  /** Number.MAX_SAFE_INTEGER, 2^53 - 1. */
  const MAX_SAFE: int := 9007199254740991

  /** The largest instant a JavaScript Date can hold, in milliseconds. */
  const MAX_DATE_MS: int := 8640000000000000

  predicate SafeInteger(n: int) {
    -MAX_SAFE <= n <= MAX_SAFE
  }

  /** `n + 1` on an integral JavaScript number: 2^53 + 1 rounds back to 2^53. */
  function Increment(n: int): int {
    if n == MAX_SAFE + 1 then n else n + 1
  }

  /** The characters removed by String.prototype.trim. */
  predicate IsSpace(c: char) {
    || c == ' '
    || '\t' <= c <= '\r'
    || c in {'\U{00A0}', '\U{1680}', '\U{2028}', '\U{2029}', '\U{202F}', '\U{205F}', '\U{3000}', '\U{FEFF}'}
    || '\U{2000}' <= c <= '\U{200A}'
  }

  predicate Blank(s: string) {
    forall i :: 0 <= i < |s| ==> IsSpace(s[i])
  }

  /** The `nonempty` test shared by ledger, fence and receipt code. */
  predicate ValidId(s: string) {
    !Blank(s) && |s| <= 256
  }

  function TerminalOutboxId(commandId: string): string {
    commandId + ":terminal"
  }

  function TerminalEventId(commandId: string): string {
    "recovery:" + commandId + ":terminal"
  }

  function ReceiptOutboxId(commandId: string): string {
    commandId + ":remote-receipt-terminal"
  }

  function ReceiptEventId(commandId: string): string {
    "recovery:" + commandId + ":remote-receipt-terminal"
  }

  /** A fixed prefix and suffix can be cancelled. */
  lemma Cancel(pre: string, a: string, b: string, post: string)
    requires pre + a + post == pre + b + post
    ensures a == b
  {
    assert |a| == |b|;
    forall i | 0 <= i < |a| ensures a[i] == b[i] {
      assert a[i] == (pre + a + post)[|pre| + i];
      assert b[i] == (pre + b + post)[|pre| + i];
    }
  }

  /** Two suffixes that differ at some place counted from the end cannot end the same string. */
  lemma SuffixesClash(x: string, p: string, y: string, q: string, back: nat)
    requires 0 < back <= |p| && back <= |q|
    requires p[|p| - back] != q[|q| - back]
    ensures x + p != y + q
  {
    var s, t := x + p, y + q;
    assert s[|s| - back] == p[|p| - back];
    assert t[|t| - back] == q[|q| - back];
  }

  /** The derived names never collide across commands. */
  lemma DerivedIdsInjective(a: string, b: string)
    ensures TerminalOutboxId(a) == TerminalOutboxId(b) ==> a == b
    ensures TerminalEventId(a) == TerminalEventId(b) ==> a == b
    ensures ReceiptOutboxId(a) == ReceiptOutboxId(b) ==> a == b
    ensures ReceiptEventId(a) == ReceiptEventId(b) ==> a == b
  {
    if TerminalOutboxId(a) == TerminalOutboxId(b) { assert "" + a == a && "" + b == b; Cancel("", a, b, ":terminal"); }
    if TerminalEventId(a) == TerminalEventId(b) { Cancel("recovery:", a, b, ":terminal"); }
    if ReceiptOutboxId(a) == ReceiptOutboxId(b) { assert "" + a == a && "" + b == b; Cancel("", a, b, ":remote-receipt-terminal"); }
    if ReceiptEventId(a) == ReceiptEventId(b) { Cancel("recovery:", a, b, ":remote-receipt-terminal"); }
  }

  /** Nor between the generic terminal event and the receipt terminal event. */
  lemma DerivedKindsDistinct(a: string, b: string)
    ensures TerminalOutboxId(a) != ReceiptOutboxId(b)
    ensures TerminalEventId(a) != ReceiptEventId(b)
  {
    var p, q := ":terminal", ":remote-receipt-terminal";
    assert p[|p| - 9] == ':' && q[|q| - 9] == '-';
    SuffixesClash(a, p, b, q, 9);
    SuffixesClash("recovery:" + a, p, "recovery:" + b, q, 9);
  }
}
