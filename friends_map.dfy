/**
  The map page's friend pipeline (src/components/FriendsMap.tsx): friends
  without usable coordinates are geocoded from their "Present Address", those
  still at 0 are dropped, the rest are searched by name or address, and the
  markers shown determine the bounds the map is fitted to.
 */
module FriendsMap {

  import opened Wrappers
  import opened Coordinates
  import opened Friends
  import opened Text
  import Seqs

  /** The "Present Address" property, absent when the record has none. */
  type Address = Option<string>

  /** `getCoordsFromAddress`: a coordinate pair, or None when not found or on error. */
  type Geocoder = Address -> Option<LatLng>

  function PresentAddress(f: Friend): Address
  {
    if "Present Address" in f.fields then Some(f.fields["Present Address"]) else None
  }

  // ---------------------------------------------------------------------------
  // Geocoding pass

  /** `friend.lat && friend.lng && !isNaN(friend.lat) && !isNaN(friend.lng)` */
  predicate HasUsableCoords(f: Friend)
  {
    Truthy(f.lat) && Truthy(f.lng) && !IsNaN(f.lat) && !IsNaN(f.lng)
  }

  /**
    One friend through the geocoding pass. A friend with usable coordinates is
    returned as it is, whatever the geocoder would answer; any other friend is a
    copy in which only `lat` and `lng` are replaced, by the geocoder's values or
    by 0 each when it finds nothing.
   */
  function Resolve(f: Friend, geocode: Geocoder): (r: Friend)
    ensures r.fields == f.fields
    ensures HasUsableCoords(f) ==> r == f
    ensures !HasUsableCoords(f) && geocode(PresentAddress(f)).None? ==> IsZero(r.lat) && IsZero(r.lng)
    ensures !HasUsableCoords(f) && geocode(PresentAddress(f)).Some? ==>
              LatLng(r.lat, r.lng) == geocode(PresentAddress(f)).value
  {
    if HasUsableCoords(f) then f
    else
      var coords := geocode(PresentAddress(f));
      f.(lat := if coords.Some? then coords.value.lat else Zero,
         lng := if coords.Some? then coords.value.lng else Zero)
  }

  /** `friends.map(...)` followed by `Promise.all`, taken as one atomic step. */
  function ResolveAll(friends: seq<Friend>, geocode: Geocoder): (r: seq<Friend>)
    ensures |r| == |friends|
    ensures forall i :: 0 <= i < |friends| ==> r[i] == Resolve(friends[i], geocode)
  {
    seq(|friends|, i requires 0 <= i < |friends| => Resolve(friends[i], geocode))
  }

  /** `f.lat !== 0 && f.lng !== 0` */
  predicate KeptAfterGeocoding(f: Friend)
  {
    !IsZero(f.lat) && !IsZero(f.lng)
  }

  /** The list `geocodeFriends` stores with `setFriendsWithCoords`. */
  function Stored(friends: seq<Friend>, geocode: Geocoder): seq<Friend>
  {
    Seqs.Filter(ResolveAll(friends, geocode), KeptAfterGeocoding)
  }

  /** The input positions whose friends end up in `Stored`, in increasing order. */
  function StoredPositions(friends: seq<Friend>, geocode: Geocoder): seq<nat>
  {
    Seqs.FilterIndices(ResolveAll(friends, geocode), KeptAfterGeocoding)
  }

  /**
    The stored list is the resolved list minus every friend with a zero `lat`
    or a zero `lng`, in input order: its k-th element is the resolved form of
    the input friend at the k-th stored position, and an input position is
    stored exactly when its resolved friend has no zero coordinate. Friends
    with usable coordinates are always stored; a friend the geocoder cannot
    find never is.
   */
  lemma StoredFromInput(friends: seq<Friend>, geocode: Geocoder)
    ensures |Stored(friends, geocode)| == |StoredPositions(friends, geocode)| <= |friends|
    ensures Seqs.Increasing(StoredPositions(friends, geocode))
    ensures forall k :: 0 <= k < |Stored(friends, geocode)| ==>
              StoredPositions(friends, geocode)[k] < |friends| &&
              Stored(friends, geocode)[k] == Resolve(friends[StoredPositions(friends, geocode)[k]], geocode)
    ensures forall i :: 0 <= i < |friends| ==>
              (i in StoredPositions(friends, geocode) <==> KeptAfterGeocoding(Resolve(friends[i], geocode)))
    ensures forall i :: 0 <= i < |friends| && HasUsableCoords(friends[i]) ==>
              i in StoredPositions(friends, geocode)
    ensures forall i :: 0 <= i < |friends| ==>
              (!HasUsableCoords(friends[i]) && geocode(PresentAddress(friends[i])).None?) ==>
              i !in StoredPositions(friends, geocode)
    ensures forall k :: 0 <= k < |Stored(friends, geocode)| ==> KeptAfterGeocoding(Stored(friends, geocode)[k])
  {
    Seqs.FilterPositions(ResolveAll(friends, geocode), KeptAfterGeocoding);
  }

  /** When every friend already has usable coordinates, the stored list is the input list. */
  lemma {:induction false} AllUsableStoredUnchanged(friends: seq<Friend>, geocode: Geocoder)
    requires forall i :: 0 <= i < |friends| ==> HasUsableCoords(friends[i])
    ensures Stored(friends, geocode) == friends
  {
    assert ResolveAll(friends, geocode) == friends;
    Seqs.FilterKeepsAll(friends, KeptAfterGeocoding);
  }

  /**
    The zero test does not catch NaN: a friend the geocoder answers with NaN
    coordinates (`parseFloat` of a malformed reply) is stored.
   */
  lemma GeocodedNaNIsStored(f: Friend, geocode: Geocoder)
    requires !HasUsableCoords(f) && geocode(PresentAddress(f)) == Some(LatLng(NaN, NaN))
    ensures Stored([f], geocode) == [f.(lat := NaN, lng := NaN)]
  {
  }

  // ---------------------------------------------------------------------------
  // Search

  /**
    The name searched: the "Name" property, read as '' when absent, as the
    address already is (see `FilteredAsWritten` for the code as written).
   */
  function NameOrEmpty(f: Friend): string
  {
    if "Name" in f.fields then f.fields["Name"] else ""
  }

  /** `(f['Present Address'] || '')` */
  function AddressOrEmpty(f: Friend): string
  {
    if "Present Address" in f.fields then f.fields["Present Address"] else ""
  }

  /** The needle: `query.trim().toLowerCase()`. */
  function Needle(query: string): string
  {
    Lower(Trim(query))
  }

  predicate Matches(f: Friend, query: string)
  {
    Includes(Lower(NameOrEmpty(f)), Needle(query)) || Includes(Lower(AddressOrEmpty(f)), Needle(query))
  }

  function MatcherFor(query: string): Friend -> bool
  {
    f => Matches(f, query)
  }

  /**
    The `filtered` memo, read with a missing "Name" or "Present Address"
    property taken as the empty string. The code as written throws on a
    missing "Name" instead; `FilteredAsWritten` models that.
   */
  function Filtered(list: seq<Friend>, query: string): seq<Friend>
  {
    Seqs.Filter(list, MatcherFor(query))
  }

  /**
    A friend matches exactly when the trimmed, lower-cased query occurs in its
    lower-cased name or in its lower-cased address.
   */
  lemma MatchesIff(f: Friend, query: string)
    ensures Matches(f, query) <==>
              (exists i :: OccursAt(Lower(NameOrEmpty(f)), Lower(Trim(query)), i)) ||
              (exists i :: OccursAt(Lower(AddressOrEmpty(f)), Lower(Trim(query)), i))
  {
    IncludesIff(Lower(NameOrEmpty(f)), Needle(query));
    IncludesIff(Lower(AddressOrEmpty(f)), Needle(query));
  }

  /**
    `filtered` is an order-preserving subsequence of the stored list: a
    position is kept exactly when its friend matches, and a friend is in it
    exactly when it is in the stored list and matches.
   */
  lemma FilteredSpec(list: seq<Friend>, query: string)
    ensures |Filtered(list, query)| <= |list|
    ensures Seqs.Increasing(Seqs.FilterIndices(list, MatcherFor(query)))
    ensures forall k :: 0 <= k < |Filtered(list, query)| ==>
              Seqs.FilterIndices(list, MatcherFor(query))[k] < |list| &&
              Filtered(list, query)[k] == list[Seqs.FilterIndices(list, MatcherFor(query))[k]]
    ensures forall i :: 0 <= i < |list| ==>
              (i in Seqs.FilterIndices(list, MatcherFor(query)) <==> Matches(list[i], query))
    ensures forall f :: f in Filtered(list, query) <==> f in list && Matches(f, query)
  {
    Seqs.FilterPositions(list, MatcherFor(query));
    forall f ensures f in Filtered(list, query) <==> f in list && Matches(f, query) {
      Seqs.FilterMembership(list, MatcherFor(query), f);
    }
  }

  /** A query that is empty or only white space keeps every friend, in order. */
  lemma BlankQueryKeepsAll(list: seq<Friend>, query: string)
    requires forall k :: 0 <= k < |query| ==> IsWhitespace(query[k])
    ensures Filtered(list, query) == list
  {
    assert Needle(query) == "";
    forall k | 0 <= k < |list| ensures MatcherFor(query)(list[k]) {
      IncludesEmpty(Lower(NameOrEmpty(list[k])));
    }
    Seqs.FilterKeepsAll(list, MatcherFor(query));
  }

  // ---------------------------------------------------------------------------
  // Search as written

  /** Evaluation of an expression: its value, or a TypeError thrown out of it. */
  datatype Completion<T> = Normal(value: T) | Throws

  predicate HasName(f: Friend) { "Name" in f.fields }

  /**
    The `filtered` memo as written: `f['Name'].toLowerCase()` throws a
    TypeError for the first friend whose record has no "Name" property.
    It agrees with `Filtered` whenever every friend has a name.
   */
  function FilteredAsWritten(list: seq<Friend>, query: string): (r: Completion<seq<Friend>>)
    ensures r.Throws? <==> exists k :: 0 <= k < |list| && !HasName(list[k])
    ensures r.Normal? ==> r.value == Filtered(list, query)
  {
    if list == [] then Normal([])
    else if !HasName(list[0]) then Throws
    else
      match FilteredAsWritten(list[1..], query)
      case Throws =>
        assert exists k :: 0 <= k < |list| && !HasName(list[k]) by {
          var k :| 0 <= k < |list[1..]| && !HasName(list[1..][k]);
          assert !HasName(list[k + 1]);
        }
        Throws
      case Normal(rest) =>
        assert forall k :: 0 <= k < |list| ==> HasName(list[k]) by {
          forall k | 0 <= k < |list| ensures HasName(list[k]) {
            if k > 0 { assert list[k] == list[1..][k - 1]; }
          }
        }
        Normal(if Includes(Lower(list[0].fields["Name"]), Needle(query))
                  || Includes(Lower(AddressOrEmpty(list[0])), Needle(query))
               then [list[0]] + rest else rest)
  }

  // ---------------------------------------------------------------------------
  // Bounds and the fit action

  /**
    The `bounds` memo: null when nothing is shown, otherwise bounds built from
    exactly the `[lat, lng]` pairs of the shown friends, in order. The extent
    Leaflet computes from them is not modelled.
   */
  function Bounds(shown: seq<Friend>): (b: Option<seq<LatLng>>)
    ensures b.None? <==> shown == []
    ensures b.Some? ==> |b.value| == |shown|
    ensures b.Some? ==> forall k :: 0 <= k < |shown| ==> b.value[k] == LatLng(shown[k].lat, shown[k].lng)
  {
    if shown == [] then None
    else Some(seq(|shown|, k requires 0 <= k < |shown| => LatLng(shown[k].lat, shown[k].lng)))
  }

  /** What the map is told to do. */
  datatype MapView = FitBounds(points: seq<LatLng>, padding: nat) | SetView(center: LatLng, zoom: nat)

  /** `INDIA_BOUNDS`, the fallback centre. */
  const IndiaCenter: LatLng := LatLng(Finite(20.5937), Finite(78.9629))

  const FitPadding: nat := 50

  const FallbackZoom: nat := 4

  /**
    `fitMapToBounds`: bounds that Leaflet reports valid are fitted with a
    50-pixel padding; no bounds, or invalid ones, reset the view to India at
    zoom 4. `isValid` stands for Leaflet's `LatLngBounds.isValid`.
   */
  function FitMapToBounds(bounds: Option<seq<LatLng>>, isValid: seq<LatLng> -> bool): (v: MapView)
    ensures v.FitBounds? <==> bounds.Some? && isValid(bounds.value)
    ensures v.FitBounds? ==> v.points == bounds.value && v.padding == FitPadding
    ensures v.SetView? ==> v.center == IndiaCenter && v.zoom == FallbackZoom
  {
    if bounds.Some? && isValid(bounds.value) then FitBounds(bounds.value, FitPadding)
    else SetView(IndiaCenter, FallbackZoom)
  }

  /** With nothing shown, the fit action always falls back to India, whatever Leaflet would say. */
  lemma EmptySearchFallsBack(list: seq<Friend>, query: string, isValid: seq<LatLng> -> bool)
    requires Filtered(list, query) == []
    ensures FitMapToBounds(Bounds(Filtered(list, query)), isValid) == SetView(IndiaCenter, FallbackZoom)
  {
  }

  // ---------------------------------------------------------------------------
  // Component state

  /** The state of the `FriendsMap` component: `query` and `friendsWithCoords`. */
  class FriendsMap {
    var query: string
    var friendsWithCoords: seq<Friend>

    constructor ()
      ensures query == "" && friendsWithCoords == []
    {
      query := "";
      friendsWithCoords := [];
    }

    /** `onQueryChange`: `setQuery(e.target.value)`; the debounced `onSearch` call is not modelled. */
    method OnQueryChange(text: string)
      modifies this
      ensures query == text
      ensures friendsWithCoords == old(friendsWithCoords)
    {
      query := text;
    }

    /** The effect run when the `friends` prop changes: `geocodeFriends` as one atomic step. */
    method GeocodeFriends(friends: seq<Friend>, geocode: Geocoder)
      modifies this
      ensures friendsWithCoords == Stored(friends, geocode)
      ensures |friendsWithCoords| <= |friends|
      ensures forall k :: 0 <= k < |friendsWithCoords| ==> KeptAfterGeocoding(friendsWithCoords[k])
      ensures query == old(query)
    {
      friendsWithCoords := Stored(friends, geocode);
    }

    /**
      The friends shown as markers: the stored friends that match the query,
      under the reading of `Filtered` (as written, a stored friend without a
      "Name" makes the memo throw; see `FilteredAsWritten`).
     */
    function Shown(): seq<Friend>
      reads this
    {
      Filtered(friendsWithCoords, query)
    }

    /** The bounds handed to the fit button. */
    function ShownBounds(): (b: Option<seq<LatLng>>)
      reads this
      ensures b.None? <==> Shown() == []
    {
      Bounds(Shown())
    }
  }
}
