/**
 * The storefront page component itself: the two pieces of state its event
 * handlers replace (the cart and the current track), with one method per
 * handler. Each method installs the value the matching pure function of the
 * `Cart` or `Tracks` module computes, and keeps the page invariant.
 */
module Page {
  import opened Catalog
  import opened Cart
  import Tracks

  class Index {
    /** The `cart` state cell. */
    var cart: seq<CartItem>
    /** The `currentTrack` state cell. */
    var currentTrack: int

    /** The cart is well formed and the current track is a listed one. */
    ghost predicate Valid()
      reads this
    {
      WellFormed(cart) && 0 <= currentTrack < |Tracks.Playlist|
    }

    /** The initial state: an empty cart and the first track. */
    constructor ()
      ensures Valid()
      ensures cart == [] && currentTrack == 0
    {
      cart := [];
      currentTrack := 0;
    }

    /** `addToCart(product)`, from the plus button of a catalog card. */
    method AddToCart(product: Product)
      requires Valid()
      modifies this`cart
      ensures Valid()
      ensures cart == Cart.AddToCart(old(cart), product)
    {
      AddToCartPreservesWellFormed(cart, product);
      cart := Cart.AddToCart(cart, product);
    }

    /** `removeFromCart(id)`. */
    method RemoveFromCart(id: int)
      requires Valid()
      modifies this`cart
      ensures Valid()
      ensures cart == Cart.RemoveFromCart(old(cart), id)
    {
      RemoveFromCartPreservesWellFormed(cart, id);
      cart := Cart.RemoveFromCart(cart, id);
    }

    /** `updateQuantity(id, quantity)`, from the minus and plus buttons of a cart line. */
    method UpdateQuantity(id: int, quantity: int)
      requires Valid()
      modifies this`cart
      ensures Valid()
      ensures cart == Cart.UpdateQuantity(old(cart), id, quantity)
    {
      if quantity <= 0 {
        RemoveFromCart(id);
        return;
      }
      UpdateQuantityPreservesWellFormed(cart, id, quantity);
      cart := Sequences.Map(cart, SetQuantity(id, quantity));
    }

    /** A click on the track row at position `index`; rows exist only for listed tracks. */
    method SelectTrack(index: int)
      requires Valid()
      requires 0 <= index < |Tracks.Playlist|
      modifies this`currentTrack
      ensures Valid()
      ensures currentTrack == index
    {
      currentTrack := index;
    }

    /** The skip-back button. */
    method SkipBack()
      requires Valid()
      modifies this`currentTrack
      ensures Valid()
      ensures currentTrack == Tracks.SkipBack(old(currentTrack))
    {
      currentTrack := Tracks.Max(0, currentTrack - 1);
    }

    /** The skip-forward button. */
    method SkipForward()
      requires Valid()
      modifies this`currentTrack
      ensures Valid()
      ensures currentTrack == Tracks.SkipForward(old(currentTrack), |Tracks.Playlist|)
    {
      currentTrack := Tracks.Min(|Tracks.Playlist| - 1, currentTrack + 1);
    }
  }
}
