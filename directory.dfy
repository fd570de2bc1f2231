/** The read-only centre directory the booking wizard consults: the `Center`
    record and the fixed list of centres the application ships with, and the
    first-match lookup by identifier that the wizard performs on it. */
module Directory {

  datatype Option<+T> = None | Some(value: T)

  /** A donation centre. Slot labels are plain strings, never parsed as times. */
  datatype Center = Center(
    id: string,
    name: string,
    address: string,
    distance: string,
    hours: string,
    availableSlots: seq<string>)

  /** The three centres the application is built with. */
  function MockCenters(): seq<Center>
  {
    [ Center("1", "Metro Blood Center", "123 Main St, Downtown", "0.8 miles", "08:00 - 18:00",
             ["09:00", "10:30", "14:00"]),
      Center("2", "St. Mary's Hospital", "45 River Rd, Northside", "2.4 miles", "24/7",
             ["11:00", "13:00", "16:30"]),
      Center("3", "Community Hall Drive", "88 Oak Ave, West End", "5.1 miles", "09:00 - 15:00",
             ["09:30", "12:00"]) ]
  }

  /** No two centres of the directory share an identifier. */
  predicate UniqueIds(cs: seq<Center>)
  {
    forall j, k :: 0 <= j < k < |cs| ==> cs[j].id != cs[k].id
  }

  /** `centers.find(c => c.id === id)`: the first centre carrying `id`, if any. */
  function FindCenter(cs: seq<Center>, id: string): (r: Option<Center>)
    ensures r.Some? ==> r.value in cs && r.value.id == id
    ensures r.None? <==> forall k :: 0 <= k < |cs| ==> cs[k].id != id
    decreases |cs|
  {
    if cs == [] then None
    else if cs[0].id == id then Some(cs[0])
    else FindCenter(cs[1..], id)
  }

  /** The lookup returns the FIRST centre with the identifier: every centre
      before position `k` carries another identifier. */
  lemma {:induction false} FindCenterIsFirst(cs: seq<Center>, k: nat)
    requires k < |cs|
    requires forall j :: 0 <= j < k ==> cs[j].id != cs[k].id
    ensures FindCenter(cs, cs[k].id) == Some(cs[k])
  {
    if k > 0 {
      assert cs[0].id != cs[k].id;
      FindCenterIsFirst(cs[1..], k - 1);
    }
  }

  /** With unique identifiers, looking up a centre's own identifier finds
      exactly that centre. */
  lemma FindCenterOfMember(cs: seq<Center>, k: nat)
    requires UniqueIds(cs) && k < |cs|
    ensures FindCenter(cs, cs[k].id) == Some(cs[k])
  {
  }

  /** The shipped directory has unique identifiers. */
  lemma MockCentersHaveUniqueIds()
    ensures UniqueIds(MockCenters())
  {
  }
}
