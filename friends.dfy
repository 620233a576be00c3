/**
  A friend record as the application passes it around: a JavaScript object whose
  string-valued properties are kept in `fields` (spreadsheet columns such as
  "Name" and "Present Address", or the form's "id", "name", "city", ...), and
  whose numeric `lat` and `lng` properties are kept apart.
 */
module Friends {

  import opened Coordinates

  datatype Friend = Friend(fields: map<string, string>, lat: Num, lng: Num)
}
