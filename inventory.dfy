/** The inventory screen: the active lots, the "complete" mark of a sold-out
    lot, and the stock broadcast that is either opened in WhatsApp or copied
    to the clipboard. Both builders grow one message lot by lot; they differ
    only when no lot is active. */
module Inventory {
  import opened Seqs
  import opened Text
  import opened Domain
  import opened Dashboard

  const Header := "*📦 ESTOQUE DISPONÍVEL - ATUALIZAÇÃO 📦*\n\n"
  const NoneLine := "_Nenhum produto disponível no momento._"
  const Footer := "👇 *Responda essa mensagem para reservar!*"

  const BlockOpen := "🔹 *"
  const NameClose := "*\n"
  const RemainingOpen := "   Restam: "
  const RemainingClose := " unid\n"
  const PriceOpen := "   💰 Valor: R$ "

  /** `isComplete`: no unit left. */
  predicate IsComplete(p: Product) {
    p.remainingQuantity == 0
  }

  /** A sold-out lot is exactly one the overview labels "COMPLETA". */
  lemma IsCompleteIsDashboardLabel(p: Product)
    ensures IsComplete(p) <==> StockLabel(p) == Complete
  {
    StockLabelIff(p);
  }

  /** Lots with units left get a block in the broadcast. */
  predicate InStock(p: Product) {
    p.remainingQuantity > 0
  }

  /** `p.price && p.price > 0`. */
  predicate HasPrice(p: Product) {
    p.price.Some? && p.price.value > 0
  }

  function NameLine(p: Product): string {
    BlockOpen + p.name + NameClose
  }

  function RemainingLine(p: Product): string {
    RemainingOpen + IntToString(p.remainingQuantity) + RemainingClose
  }

  /** The price line of a block: empty unless the lot has a positive price. */
  function PriceLine(p: Product): string {
    if HasPrice(p) then PriceOpen + FormatCents(p.price.value) + "\n" else ""
  }

  /** The block of one lot: its name, the units left, the price line and a
      blank line. */
  function Block(p: Product): (r: string)
    ensures StartsWith(r, BlockOpen) && EndsWith(r, "\n")
  {
    NameLine(p) + RemainingLine(p) + PriceLine(p) + "\n"
  }

  /** A block shows the lot's name and, after it, the number of units
      left. */
  lemma BlockShowsNameAndUnits(p: Product)
    ensures OccursAt(Block(p), p.name, |BlockOpen|)
    ensures OccursAt(Block(p), IntToString(p.remainingQuantity),
                     |BlockOpen| + |p.name| + |NameClose| + |RemainingOpen|)
  {
    var name, units := NameLine(p), RemainingLine(p);
    var rest := PriceLine(p);
    OccursAtEnd(BlockOpen, p.name);
    OccursExtend(BlockOpen + p.name, p.name, |BlockOpen|, NameClose);
    OccursExtend(name, p.name, |BlockOpen|, units);
    OccursExtend(name + units, p.name, |BlockOpen|, rest);
    OccursExtend(name + units + rest, p.name, |BlockOpen|, "\n");
    var n := IntToString(p.remainingQuantity);
    OccursAtEnd(RemainingOpen, n);
    OccursExtend(RemainingOpen + n, n, |RemainingOpen|, RemainingClose);
    OccursShift(name, units, n, |RemainingOpen|);
    OccursExtend(name + units, n, |name| + |RemainingOpen|, rest);
    OccursExtend(name + units + rest, n, |name| + |RemainingOpen|, "\n");
  }

  /** The price line is present exactly when the price is present and
      positive, and it then reads back as that price. */
  lemma PriceLineShowsPrice(p: Product)
    ensures PriceLine(p) != "" <==> HasPrice(p)
    ensures HasPrice(p) ==>
              var amount := PriceLine(p)[|PriceOpen|..|PriceLine(p)| - 1];
              amount == FormatCents(p.price.value)
              && AllDigits(amount[..|amount| - 3]) && AllDigits(amount[|amount| - 2..])
              && ParseCents(amount) == p.price.value
  {
    if HasPrice(p) {
      var l := PriceLine(p);
      assert l[|PriceOpen|..|l| - 1] == FormatCents(p.price.value);
      FormatCentsRoundTrip(p.price.value);
    }
  }

  /** What the loop appends for one lot: its block when it has units left. */
  function Entry(p: Product): string {
    if InStock(p) then Block(p) else ""
  }

  /** The text the loop builds from `ps`: the entries, in order. */
  function Listing(ps: seq<Product>): string {
    ConcatMap(ps, Entry)
  }

  /** The blocks of all of `ps`, in order. */
  function ConcatBlocks(ps: seq<Product>): string {
    ConcatMap(ps, Block)
  }

  /** The listing is the blocks of the lots with units left, in list order,
      and of no other lot. */
  lemma ListingIsInStockBlocks(ps: seq<Product>)
    ensures Listing(ps) == ConcatBlocks(Filter(ps, InStock))
  {
    ConcatMapFilter(ps, InStock, Block, Entry);
  }

  predicate IsListed(p: Product) {
    IsActive(p) && InStock(p)
  }

  /** A lot has a block in the broadcast exactly when it is active and has
      units left; blocks follow the list order. */
  lemma ActiveListingContents(ps: seq<Product>)
    ensures Listing(ActiveProducts(ps)) == ConcatBlocks(Filter(ps, IsListed))
  {
    ListingIsInStockBlocks(ActiveProducts(ps));
    FilterFilter(ps, IsActive, InStock, IsListed);
  }

  /** The message `handleShareToWhatsApp` opens. */
  function ShareText(ps: seq<Product>): (r: string)
    ensures StartsWith(r, Header)
    ensures ActiveProducts(ps) != [] ==> EndsWith(r, Footer)
  {
    var active := ActiveProducts(ps);
    if |active| == 0 then Header + NoneLine else Header + Listing(active) + Footer
  }

  /** The message `copyToClipboard` writes. */
  function CopyText(ps: seq<Product>): (r: string)
    ensures StartsWith(r, Header) && EndsWith(r, Footer)
  {
    Header + Listing(ActiveProducts(ps)) + Footer
  }

  predicate StartsWith(s: string, t: string) {
    |t| <= |s| && s[..|t|] == t
  }

  predicate EndsWith(s: string, t: string) {
    |t| <= |s| && s[|s| - |t|..] == t
  }

  /** With no active lot, the shared message is the header and the "nothing
      available" line, with no footer. */
  lemma ShareWithNoActiveLot(ps: seq<Product>)
    requires forall i :: 0 <= i < |ps| ==> !IsActive(ps[i])
    ensures ShareText(ps) == Header + NoneLine
    ensures !EndsWith(ShareText(ps), Footer)
  {
    var a := ActiveProducts(ps);
    if |a| > 0 {
      assert a[0] in ps;
    }
    var s := ShareText(ps);
    assert s[|s| - 1] == '_';
  }

  /** The copied message starts with the header and always ends with the
      footer; with no active lot it is just those two. */
  lemma CopyFraming(ps: seq<Product>)
    ensures StartsWith(CopyText(ps), Header) && EndsWith(CopyText(ps), Footer)
    ensures (forall i :: 0 <= i < |ps| ==> !IsActive(ps[i])) ==> CopyText(ps) == Header + Footer
  {
  }

  /** With at least one active lot, both buttons produce the same text. */
  lemma ShareEqualsCopyWhenActive(ps: seq<Product>, i: nat)
    requires i < |ps| && IsActive(ps[i])
    ensures ShareText(ps) == CopyText(ps)
  {
    assert ps[i] in ActiveProducts(ps);
  }

  /** `handleShareToWhatsApp`: builds the message that is then opened in a
      WhatsApp link. */
  method ShareToWhatsApp(products: seq<Product>) returns (message: string)
    ensures message == ShareText(products)
  {
    var active := ActiveProducts(products);
    message := Header;
    if |active| == 0 {
      message := message + NoneLine;
    } else {
      message := AppendBlocks(message, active);
      message := message + Footer;
    }
  }

  /** `copyToClipboard`: builds the message that is then written to the
      clipboard. */
  method CopyToClipboard(products: seq<Product>) returns (message: string)
    ensures message == CopyText(products)
  {
    var active := ActiveProducts(products);
    message := Header;
    message := AppendBlocks(message, active);
    message := message + Footer;
  }

  /** The `forEach` both builders share: for each lot with units left,
      append its lines to the message. */
  method AppendBlocks(start: string, active: seq<Product>) returns (message: string)
    ensures message == start + Listing(active)
  {
    message := start;
    var i := 0;
    while i < |active|
      invariant 0 <= i <= |active|
      invariant message == start + Listing(active[..i])
    {
      var p := active[i];
      ConcatMapTake(active, i, Entry);
      if p.remainingQuantity > 0 {
        Assoc3(start, Listing(active[..i]), Block(p));
        message := AppendBlock(message, p);
      } else {
        assert Listing(active[..i]) + "" == Listing(active[..i]);
      }
      i := i + 1;
    }
    assert active[..i] == active;
  }

  /** The body of the `forEach` for a lot with units left: one `+=` per
      line. */
  method AppendBlock(start: string, p: Product) returns (message: string)
    ensures message == start + Block(p)
  {
    message := start + NameLine(p);
    message := message + RemainingLine(p);
    if p.price.Some? && p.price.value > 0 {
      message := message + (PriceOpen + FormatCents(p.price.value) + "\n");
    }
    message := message + "\n";
    Assoc4(start, NameLine(p), RemainingLine(p), PriceLine(p), "\n");
  }

  lemma Assoc3(a: string, b: string, c: string)
    ensures a + b + c == a + (b + c)
  {
  }

  lemma Assoc4(a: string, b: string, c: string, d: string, e: string)
    ensures a + b + c + d + e == a + (b + c + d + e)
  {
    assert a + b + c + d + e == a + (b + (c + (d + e)));
    assert b + c + d + e == b + (c + (d + e));
  }
}
