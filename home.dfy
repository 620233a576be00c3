/**
  The home page (src/pages/Home.tsx): owns the friend list handed to the map
  and whether the add-friend modal is open. The list is replaced when the
  spreadsheet has been parsed and grows when the form submits.
 */
module Home {

  import opened Coordinates
  import opened Friends
  import FriendsMap
  import AddFriendForm

  /** A parsed spreadsheet row: column header to cell text. */
  type Row = map<string, string>

  /** `Number(row[key])`, where a missing cell is `undefined` and `Number(undefined)` is NaN. */
  function CellNumber(row: Row, key: string, number: string -> Num): (n: Num)
    ensures key !in row ==> n == NaN
    ensures key in row ==> n == number(row[key])
  {
    if key in row then number(row[key]) else NaN
  }

  /**
    `{ ...friend, lat: Number(friend.lat), lng: Number(friend.lng) }`: every
    column but `lat` and `lng` is kept as it is, and those two become numbers.
    `number` stands for JavaScript's `Number` on a string.
   */
  function CoerceRow(row: Row, number: string -> Num): (f: Friend)
    ensures f.fields.Keys == row.Keys - {"lat", "lng"}
    ensures forall k :: k in f.fields ==> f.fields[k] == row[k]
    ensures f.lat == CellNumber(row, "lat", number) && f.lng == CellNumber(row, "lng", number)
  {
    Friend(row - {"lat", "lng"}, CellNumber(row, "lat", number), CellNumber(row, "lng", number))
  }

  /** The `complete` callback's mapping: one record per row, in row order. */
  function CoerceRows(rows: seq<Row>, number: string -> Num): (fs: seq<Friend>)
    ensures |fs| == |rows|
    ensures forall k :: 0 <= k < |rows| ==> fs[k] == CoerceRow(rows[k], number)
  {
    seq(|rows|, k requires 0 <= k < |rows| => CoerceRow(rows[k], number))
  }

  /**
    A row with no `lat` cell cannot keep its coordinates: its record goes to
    the geocoder on the map page.
   */
  lemma RowWithoutLatIsGeocoded(row: Row, number: string -> Num)
    requires "lat" !in row
    ensures !FriendsMap.HasUsableCoords(CoerceRow(row, number))
  {
  }

  /** The page's state variables. */
  class Home {
    var friends: seq<Friend>
    var openForm: bool

    constructor ()
      ensures friends == [] && !openForm
    {
      friends := [];
      openForm := false;
    }

    /** The parser's `complete` callback: the list becomes the coerced rows. */
    method OnSheetParsed(rows: seq<Row>, number: string -> Num)
      modifies this
      ensures friends == CoerceRows(rows, number)
      ensures openForm == old(openForm)
    {
      friends := CoerceRows(rows, number);
    }

    /** `addFriend`: the new friend goes at the end and the modal closes. */
    method AddFriend(newFriend: Friend)
      modifies this
      ensures friends == old(friends) + [newFriend]
      ensures |friends| == |old(friends)| + 1 && friends[..|old(friends)|] == old(friends)
      ensures !openForm
    {
      friends := friends + [newFriend];
      openForm := false;
    }

    /** The "+ Add Friend" button. */
    method OpenForm()
      modifies this
      ensures openForm && friends == old(friends)
    {
      openForm := true;
    }

    /** The modal's `onClose`. */
    method CloseForm()
      modifies this
      ensures !openForm && friends == old(friends)
    {
      openForm := false;
    }
  }

  /**
    A friend submitted through the form, at a marker with non-zero coordinates,
    keeps them on the map page and is stored; as it has no "Name" property, the
    search memo as written then throws, whatever the query.
   */
  lemma SubmittedFriendBreaksSearch(friends: seq<Friend>, id: string, name: string, city: string,
                                    phone: string, email: string, status: AddFriendForm.Status,
                                    pos: LatLng, geocode: FriendsMap.Geocoder, query: string)
    requires Truthy(pos.lat) && Truthy(pos.lng)
    ensures AddFriendForm.NewFriend(id, name, city, phone, email, status, pos) in
              FriendsMap.Stored(friends + [AddFriendForm.NewFriend(id, name, city, phone, email, status, pos)], geocode)
    ensures FriendsMap.FilteredAsWritten(
              FriendsMap.Stored(friends + [AddFriendForm.NewFriend(id, name, city, phone, email, status, pos)], geocode),
              query).Throws?
  {
    var added := AddFriendForm.NewFriend(id, name, city, phone, email, status, pos);
    var all := friends + [added];
    var i := |friends|;
    FriendsMap.StoredFromInput(all, geocode);
    assert all[i] == added;
    assert FriendsMap.HasUsableCoords(added);
    var stored := FriendsMap.Stored(all, geocode);
    var positions := FriendsMap.StoredPositions(all, geocode);
    assert i in positions;
    var k :| 0 <= k < |positions| && positions[k] == i;
    assert stored[k] == added;
    assert !FriendsMap.HasName(stored[k]);
  }
}
