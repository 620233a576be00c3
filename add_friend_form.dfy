/**
  The add-friend form (src/components/AddFriendForm.tsx): text fields, a
  status, and a marker placed by clicking the map. Submitting with a marker
  hands one new friend record to `onSubmit`; without one it only alerts.
 */
module AddFriendForm {

  import opened Wrappers
  import opened Coordinates
  import opened Friends

  datatype Status = Online | Offline | Busy | Away

  function StatusText(s: Status): (t: string)
  {
    match s
    case Online => "online"
    case Offline => "offline"
    case Busy => "busy"
    case Away => "away"
  }

  const NoLocationAlert: string := "Select a location on the map"

  /**
    The record `handleSubmit` builds. `id` stands for `Date.now().toString()`.
    It carries the form's own keys and no "Name" or "Present Address" key.
   */
  function NewFriend(id: string, name: string, city: string, phone: string, email: string,
                     status: Status, pos: LatLng): (f: Friend)
    ensures f.fields.Keys == {"id", "name", "city", "phone", "email", "status"}
    ensures f.fields["id"] == id && f.fields["name"] == name && f.fields["city"] == city
    ensures f.fields["phone"] == phone && f.fields["email"] == email && f.fields["status"] == StatusText(status)
    ensures f.lat == pos.lat && f.lng == pos.lng
    ensures "Name" !in f.fields && "Present Address" !in f.fields
  {
    Friend(map["id" := id, "name" := name, "city" := city, "phone" := phone,
               "email" := email, "status" := StatusText(status)],
           pos.lat, pos.lng)
  }

  /** What a submission does: alert, or call `onSubmit` once with a record. */
  datatype SubmitOutcome = Alerted(message: string) | Submitted(friend: Friend)

  /** The form's state variables. */
  class AddFriendForm {
    var name: string
    var city: string
    var phone: string
    var email: string
    var status: Status
    var markerPos: Option<LatLng>

    constructor ()
      ensures name == "" && city == "" && phone == "" && email == ""
      ensures status == Offline && markerPos == None
    {
      name, city, phone, email := "", "", "", "";
      status := Offline;
      markerPos := None;
    }

    method SetName(v: string)
      modifies this
      ensures name == v
      ensures city == old(city) && phone == old(phone) && email == old(email)
      ensures status == old(status) && markerPos == old(markerPos)
    {
      name := v;
    }

    method SetCity(v: string)
      modifies this
      ensures city == v
      ensures name == old(name) && phone == old(phone) && email == old(email)
      ensures status == old(status) && markerPos == old(markerPos)
    {
      city := v;
    }

    method SetPhone(v: string)
      modifies this
      ensures phone == v
      ensures name == old(name) && city == old(city) && email == old(email)
      ensures status == old(status) && markerPos == old(markerPos)
    {
      phone := v;
    }

    method SetEmail(v: string)
      modifies this
      ensures email == v
      ensures name == old(name) && city == old(city) && phone == old(phone)
      ensures status == old(status) && markerPos == old(markerPos)
    {
      email := v;
    }

    method SetStatus(v: Status)
      modifies this
      ensures status == v
      ensures name == old(name) && city == old(city) && phone == old(phone) && email == old(email)
      ensures markerPos == old(markerPos)
    {
      status := v;
    }

    /** `MapClickHandler`: a click places the marker, replacing any earlier one. */
    method OnMapClick(lat: Num, lng: Num)
      modifies this
      ensures markerPos == Some(LatLng(lat, lng))
      ensures name == old(name) && city == old(city) && phone == old(phone) && email == old(email)
      ensures status == old(status)
    {
      markerPos := Some(LatLng(lat, lng));
    }

    /**
      `handleSubmit`. Without a marker it only alerts and nothing is submitted;
      with one it submits a single record that copies the form's fields and the
      marker's coordinates. It changes no form state.
     */
    method HandleSubmit(id: string) returns (outcome: SubmitOutcome)
      ensures outcome.Alerted? <==> markerPos.None?
      ensures outcome.Alerted? ==> outcome.message == NoLocationAlert
      ensures outcome.Submitted? ==>
                outcome.friend == NewFriend(id, name, city, phone, email, status, markerPos.value)
      ensures outcome.Submitted? ==>
                outcome.friend.fields["name"] == name && outcome.friend.fields["city"] == city &&
                outcome.friend.fields["phone"] == phone && outcome.friend.fields["email"] == email &&
                outcome.friend.fields["status"] == StatusText(status) && outcome.friend.fields["id"] == id
      ensures outcome.Submitted? ==>
                outcome.friend.lat == markerPos.value.lat && outcome.friend.lng == markerPos.value.lng
    {
      if markerPos.None? {
        outcome := Alerted(NoLocationAlert);
        return;
      }
      outcome := Submitted(NewFriend(id, name, city, phone, email, status, markerPos.value));
    }
  }
}
