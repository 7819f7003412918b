/** Order ids as text: `ord-{symbol}-{bar}-{tag}`. */
module OrderNames {
  import opened TradingEngine
  import Decimal

  function TagText(tag: Tag): string {
    match tag
    case OpenTag => "open"
    case CloseTag => "close"
    case AddTag => "add"
    case ProtectionTag => "protection"
  }

  function Name(id: OrderId): string {
    "ord-" + id.symbol + "-" + Decimal.Render(id.bar) + "-" + TagText(id.tag)
  }

  predicate NoDash(text: string) {
    '-' !in text
  }

  /** The part after the last dash is determined, and so is the part before it. */
  lemma LastDash(a: string, t: string, b: string, u: string)
    requires NoDash(t) && NoDash(u) && a + "-" + t == b + "-" + u
    ensures a == b && t == u
  {
    var whole := a + "-" + t;
    assert whole[|a|] == '-' && whole[|b|] == '-';
    assert forall i :: 0 <= i < |t| ==> whole[|a| + 1 + i] == t[i];
    assert forall i :: 0 <= i < |u| ==> whole[|b| + 1 + i] == u[i];
    assert |a| == |b|;
    assert whole[..|a|] == a && whole[..|b|] == b;
    assert whole[|a| + 1..] == t && whole[|b| + 1..] == u;
  }

  lemma DigitsHaveNoDash(n: nat)
    ensures NoDash(Decimal.Render(n))
  {
  }

  /** Different orders have different names, even when a symbol contains dashes or digits. */
  lemma NamesDiffer(a: OrderId, b: OrderId)
    requires Name(a) == Name(b)
    ensures a == b
  {
    hide Decimal.Render;
    var headA, headB := "ord-" + a.symbol + "-" + Decimal.Render(a.bar), "ord-" + b.symbol + "-" + Decimal.Render(b.bar);
    assert Name(a) == headA + "-" + TagText(a.tag) && Name(b) == headB + "-" + TagText(b.tag);
    LastDash(headA, TagText(a.tag), headB, TagText(b.tag));
    DigitsHaveNoDash(a.bar);
    DigitsHaveNoDash(b.bar);
    LastDash("ord-" + a.symbol, Decimal.Render(a.bar), "ord-" + b.symbol, Decimal.Render(b.bar));
    Decimal.Injective(a.bar, b.bar);
    assert a.symbol == ("ord-" + a.symbol)[4..] && b.symbol == ("ord-" + b.symbol)[4..];
    TagsDiffer(a.tag, b.tag);
  }

  lemma TagsDiffer(a: Tag, b: Tag)
    requires TagText(a) == TagText(b)
    ensures a == b
  {
  }

  /** For instance. */
  lemma NameAtBar12()
    ensures Name(OrderId("BTC-USD", 12, ProtectionTag)) == "ord-BTC-USD-12-protection"
  {
    assert Decimal.Render(1) == "1";
    assert Decimal.Render(12) == "12";
    hide Decimal.Render;
  }
}
