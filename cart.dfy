/** The shopping cart of the public home page: a list of menu lines that grows at the
    end when a dish is added, each added line getting an id minted from the dish id, a
    timestamp and a random value, and that shrinks by filtering when a line is removed
    by id. The clock and the random source are parameters. */
module Cart {
  import opened Wrappers
  import opened Strings
  import opened Seqs

  /** A dish as the cart holds it. */
  datatype MenuItem = MenuItem(id: string, name: string, description: string, price: string,
                               popular: Option<bool>)

  /** The id given to a cart line: the dish id, `-`, the time in milliseconds and `-`
      followed by the rendering of a random number. */
  function MintedId(item: MenuItem, now: nat, random: string): string {
    item.id + "-" + NatToString(now) + "-" + random
  }

  /** The line added for `item`: a copy with the minted id. */
  function MintedLine(item: MenuItem, now: nat, random: string): MenuItem {
    item.(id := MintedId(item, now, random))
  }

  /** The cart after adding `item`. */
  function Added(cart: seq<MenuItem>, item: MenuItem, now: nat, random: string): seq<MenuItem> {
    cart + [MintedLine(item, now, random)]
  }

  /** The filter test of a removal: the line does not carry `id`. */
  function OtherId(id: string): MenuItem -> bool {
    (x: MenuItem) => x.id != id
  }

  /** The cart after removing the lines with id `id`. */
  function Removed(cart: seq<MenuItem>, id: string): seq<MenuItem> {
    Filter(cart, OtherId(id))
  }

  /** No line of `cart` carries `id`. */
  predicate Absent(cart: seq<MenuItem>, id: string) {
    forall i :: 0 <= i < |cart| ==> cart[i].id != id
  }

  /** Adding grows the cart by one line at the end and leaves the earlier lines as
      they were, in order. */
  lemma AddAppendsOne(cart: seq<MenuItem>, item: MenuItem, now: nat, random: string)
    ensures var r := Added(cart, item, now, random);
            |r| == |cart| + 1 && r[..|cart|] == cart && r[|cart|] == MintedLine(item, now, random)
  {
  }

  /** The added line is the dish with only its id changed, and the new id extends the
      dish id by a `-`, so it is never the dish id itself. */
  lemma MintedLineFields(item: MenuItem, now: nat, random: string)
    ensures var line := MintedLine(item, now, random);
            line.name == item.name && line.description == item.description &&
            line.price == item.price && line.popular == item.popular
    ensures var id := MintedLine(item, now, random).id;
            |id| > |item.id| + 1 && id[..|item.id| + 1] == item.id + "-" && id != item.id
  {
    var id := MintedId(item, now, random);
    assert id == (item.id + "-") + (NatToString(now) + "-" + random);
  }

  /** Removal keeps exactly the lines whose id differs, each as often as it occurred,
      in their original order. */
  lemma RemoveKeepsOthers(cart: seq<MenuItem>, id: string)
    ensures forall x :: x in Removed(cart, id) <==> x in cart && x.id != id
    ensures forall x :: multiset(Removed(cart, id))[x] == if x.id != id then multiset(cart)[x] else 0
    ensures IsSubsequence(Removed(cart, id), cart)
  {
    forall x ensures x in Removed(cart, id) <==> x in cart && x.id != id {
      FilterMembership(cart, OtherId(id), x);
    }
    forall x ensures multiset(Removed(cart, id))[x] == if x.id != id then multiset(cart)[x] else 0 {
      FilterCount(cart, OtherId(id), x);
    }
    FilterIsSubsequence(cart, OtherId(id));
  }

  /** Removing an id no line carries changes nothing. */
  lemma RemoveAbsentId(cart: seq<MenuItem>, id: string)
    requires Absent(cart, id)
    ensures Removed(cart, id) == cart
  {
    FilterKeepsAll(cart, OtherId(id));
  }

  /** After a removal no line carries the id, so removing it again changes nothing. */
  lemma RemoveIdempotent(cart: seq<MenuItem>, id: string)
    ensures Absent(Removed(cart, id), id)
    ensures Removed(Removed(cart, id), id) == Removed(cart, id)
  {
    FilterIdempotent(cart, OtherId(id));
  }

  /** When the minted id is new to the cart, removing it undoes the addition. */
  lemma AddThenRemove(cart: seq<MenuItem>, item: MenuItem, now: nat, random: string)
    requires Absent(cart, MintedId(item, now, random))
    ensures Removed(Added(cart, item, now, random), MintedId(item, now, random)) == cart
  {
    var id := MintedId(item, now, random);
    var line := MintedLine(item, now, random);
    FilterConcat(cart, [line], OtherId(id));
    FilterKeepsAll(cart, OtherId(id));
    assert Filter([line], OtherId(id)) == [];
  }

  /** The home page's cart state. */
  class Home {
    var carrinho: seq<MenuItem>

    constructor ()
      ensures carrinho == []
    {
      carrinho := [];
    }

    /** `adicionarAoCarrinho`, with `Date.now()` and `Math.random()` given as `now`
        and `random`. */
    method AdicionarAoCarrinho(item: MenuItem, now: nat, random: string)
      modifies this
      ensures carrinho == Added(old(carrinho), item, now, random)
    {
      var novoItem := item.(id := item.id + "-" + NatToString(now) + "-" + random);
      carrinho := carrinho + [novoItem];
    }

    /** `removerDoCarrinho`. */
    method RemoverDoCarrinho(id: string)
      modifies this
      ensures carrinho == Removed(old(carrinho), id)
    {
      carrinho := Filter(carrinho, OtherId(id));
    }
  }
}
