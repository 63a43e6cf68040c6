/**
  The persistent album record: two counters and the list of fragments the
  player has collected in dialogues. The record is one mutable object;
  `localStorage`, `JSON.parse`/`stringify` and the update event are not
  modelled, and what a load reads is a parameter.
 */
module AlbumStore {
  import opened Wrappers
  import opened Js

  datatype Who = Kiki | Toby

  /** A dialogue choice: which point of interest, and which character was supported. */
  datatype Fragment = Fragment(poiId: string, who: Who)

  /** What `Number(x)` does with a parsed field: it gives a number, or it throws
      a TypeError when x is an object none of whose `valueOf` and `toString` is
      callable. */
  datatype Converted = Value(n: Number) | Throws

  /** What `loadGame` finds in storage: nothing (or an empty string), text that
      `JSON.parse` rejects or that parses to `null` (reading a field then throws),
      or a value whose fields were read. `album` is None when the stored field is
      not an array; the counters are what `Number(...)` makes of the stored fields. */
  datatype Stored =
    | NothingStored
    | Unreadable
    | Record(album: Option<seq<Fragment>>, moustaches: Converted, pattes: Converted)

  /** Number of fragments in `album` supporting `who`. */
  function CountOf(album: seq<Fragment>, who: Who): nat
  {
    if album == [] then 0
    else CountOf(album[..|album| - 1], who) + (if album[|album| - 1].who == who then 1 else 0)
  }

  /** The counters agree with the album: `moustaches` counts the Kiki fragments
      and `pattes` the Toby fragments. */
  ghost predicate CountersMatch(album: seq<Fragment>, moustaches: Number, pattes: Number)
  {
    moustaches == Finite(CountOf(album, Kiki) as real) && pattes == Finite(CountOf(album, Toby) as real)
  }

  /** A stored counter, or 0 when it is falsy: never NaN, and the stored number itself whenever it is truthy. */
  function NormaliseCounter(n: Number): (r: Number)
    ensures !r.NaN?
    ensures Truthy(n) <==> r == n && r != Finite(0.0)
    ensures !Truthy(n) <==> r == Finite(0.0)
  {
    OrElse(n, Finite(0.0))
  }

  /** Every fragment supports exactly one of the two characters. */
  lemma {:induction false} CountsCoverAlbum(album: seq<Fragment>)
    ensures CountOf(album, Kiki) + CountOf(album, Toby) == |album|
  {
    if album != [] {
      CountsCoverAlbum(album[..|album| - 1]);
    }
  }

  /** When the counters match the album, together they count its fragments. */
  lemma CountersSumToAlbumLength(album: seq<Fragment>, moustaches: Number, pattes: Number)
    requires CountersMatch(album, moustaches, pattes)
    ensures moustaches.Finite? && pattes.Finite?
    ensures moustaches.value + pattes.value == |album| as real
  {
    CountsCoverAlbum(album);
  }

  /** Appending a fragment adds one to its character's count only. */
  lemma CountOfAppend(album: seq<Fragment>, f: Fragment)
    ensures CountOf(album + [f], f.who) == CountOf(album, f.who) + 1
    ensures forall w :: w != f.who ==> CountOf(album + [f], w) == CountOf(album, w)
  {
    assert (album + [f])[..|album|] == album;
  }

  /** A load does not re-derive the counters. By `Store.LoadGame`'s ensures, loading
      `Record(Some([]), Value(Finite(3.0)), Value(NaN))` leaves the album `[]` and the
      counters `NormaliseCounter(Finite(3.0))` and `NormaliseCounter(NaN)`; this store's
      counters disagree with its album. */
  lemma LoadDoesNotRederiveCounters()
    ensures !CountersMatch([], NormaliseCounter(Finite(3.0)), NormaliseCounter(NaN))
  {
  }

  class Store {
    var moustaches: Number
    var pattes: Number
    var album: seq<Fragment>

    ghost predicate Consistent()
      reads this
    {
      CountersMatch(album, moustaches, pattes)
    }

    /** The initial record: both counters 0, no fragments. */
    constructor ()
      ensures moustaches == Finite(0.0) && pattes == Finite(0.0) && album == []
      ensures Consistent()
    {
      moustaches := Finite(0.0);
      pattes := Finite(0.0);
      album := [];
    }

    /** `addFragment`: append the fragment, then count it for Kiki (moustaches)
        or otherwise for Toby (pattes). */
    method AddFragment(f: Fragment)
      modifies this
      ensures album == old(album) + [f]
      ensures f.who == Kiki ==> moustaches == Inc(old(moustaches)) && pattes == old(pattes)
      ensures f.who != Kiki ==> pattes == Inc(old(pattes)) && moustaches == old(moustaches)
      ensures old(moustaches).Finite? ==> moustaches.Finite? && moustaches.value >= old(moustaches).value
      ensures old(pattes).Finite? ==> pattes.Finite? && pattes.value >= old(pattes).value
      ensures old(Consistent()) ==> Consistent()
    {
      album := album + [f];
      if f.who == Kiki {
        moustaches := Inc(moustaches);
      } else {
        pattes := Inc(pattes);
      }
      CountOfAppend(old(album), f);
    }

    /** `clearGame`: empty album, both counters 0. */
    method ClearGame()
      modifies this
      ensures album == [] && moustaches == Finite(0.0) && pattes == Finite(0.0)
      ensures Consistent()
    {
      album := [];
      moustaches := Finite(0.0);
      pattes := Finite(0.0);
    }

    /** The field normalisation of `loadGame`. Nothing stored, or a record that
        cannot be read, leaves the store untouched. Otherwise the album is
        replaced first (an empty one when the stored field is not an array), then
        each counter in turn becomes its stored number, or 0 when that is falsy;
        a conversion that throws abandons the load there, so the fields set
        before it keep their new values and the rest keep their old ones. The
        counters are taken as stored, not recomputed from the album. */
    method LoadGame(stored: Stored)
      modifies this
      ensures !stored.Record? ==> album == old(album) && moustaches == old(moustaches) && pattes == old(pattes)
      ensures stored.Record? ==>
                && album == (if stored.album.Some? then stored.album.value else [])
                && moustaches == (if stored.moustaches.Value? then NormaliseCounter(stored.moustaches.n) else old(moustaches))
                && pattes == (if stored.moustaches.Value? && stored.pattes.Value? then NormaliseCounter(stored.pattes.n)
                              else old(pattes))
    {
      if stored.Record? {
        album := if stored.album.Some? then stored.album.value else [];
        if stored.moustaches.Value? {
          moustaches := NormaliseCounter(stored.moustaches.n);
          if stored.pattes.Value? {
            pattes := NormaliseCounter(stored.pattes.n);
          }
        }
      }
    }
  }
}
