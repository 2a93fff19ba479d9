/** The browser's `localStorage`, one field per key the application uses. Values are held
    already decoded: `JSON.stringify` / `JSON.parse` are not modelled, except that the
    theft-report cache can hold text that does not parse. */
module Storage {
  import opened Common
  import opened Json
  import opened Records

  /** The `theft-reports` slot: missing, a parsable list, or text `JSON.parse` rejects. */
  datatype Cache = Absent | Cached(reports: seq<TheftReport>) | Corrupt

  class LocalStorage {
    /** `lostfound_user`: the single session slot. */
    var session: Option<User>
    /** `lostfound_users`: accounts keyed by email. A missing key reads as `{}`, like an empty map. */
    var users: map<string, Account>
    /** `lostfound_remember`: set to "true" by a remembered login. */
    var remember: bool
    /** `theft-reports`: the theft tracker's offline copy. */
    var theftReports: Cache
    /** `lostfound_items`: the demo item list. A missing key reads as `[]`. */
    var demoItems: seq<Record>

    /** A browser profile with nothing stored. */
    constructor Empty()
      ensures session == None && users == map[] && !remember
      ensures theftReports == Absent && demoItems == []
    {
      session := None;
      users := map[];
      remember := false;
      theftReports := Absent;
      demoItems := [];
    }
  }
}
