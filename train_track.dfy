/**
 * A train's route in the fourth lab (class TrainTrack): the contacts of its
 * circuit, its station, the shared section it must reserve, and the switches
 * of its route. The source keeps `Contact*` addresses into the vector; here they
 * are indexes into the sequence. Waiting for a contact and setting a switch
 * are hardware calls, so the model returns the contact waited for and the
 * switch commands in the order they are issued.
 */
module TrainTracks {
  import opened Wrappers

  type Contact = nat
  type Railway = seq<Contact>

  /** A switch number and the direction to set it to. */
  datatype Switch = Switch(number: nat, direction: nat)

  /** One diriger_aiguillage call: switch, direction and its last argument. */
  datatype SwitchCommand = SwitchCommand(number: nat, direction: nat, delay: nat)

  /** How many contacts before the shared section the train asks for it. */
  const SharedSectionAccessOffset: nat := 3
  /** How many contacts after the shared section the train releases it. */
  const SharedSectionLeaveOffset: nat := 1
  /** How many contacts before the shared section the switches are set. */
  const SwitchesUpdateOffset: nat := 1

  /** The constructor's four invalid_argument cases, in the order it tests them,
      and the two range errors of the corrected constructor. */
  datatype TrackError =
    | StationNotOnTrack
    | SectionBeginNotOnTrack
    | SectionEndNotOnTrack
    | SectionEndNotAfterBegin
    | SectionTooCloseToTrackStart  // only the corrected constructor
    | SectionTooCloseToTrackEnd    // only the corrected constructor

  datatype TrainTrack = TrainTrack(
    track: Railway,
    station: nat,        // index of the station contact
    sectionBegin: nat,   // index of the shared section's first contact
    sectionEnd: nat,     // index of the shared section's last contact
    switches: seq<Switch>)

  /** A well-formed route: every index is on the track and the section ends
      strictly after it begins. */
  predicate Valid(t: TrainTrack) {
    t.station < |t.track| && t.sectionBegin < t.sectionEnd < |t.track|
  }

  /** `i` is where `c` first occurs in `track`. */
  predicate FirstOccurrence(track: Railway, i: nat, c: Contact) {
    i < |track| && track[i] == c && forall j :: 0 <= j < i ==> track[j] != c
  }

  /** std::find: the first index of `c`, or None for the end iterator. */
  function Find(track: Railway, c: Contact): (r: Option<nat>)
    ensures r.Some? ==> FirstOccurrence(track, r.value, c)
    ensures r.None? <==> c !in track
    decreases |track|
  {
    if track == [] then None
    else if track[0] == c then Some(0)
    else
      match Find(track[1..], c)
      case None => None
      case Some(i) => Some(i + 1)
  }

  /** The constructor, as written: it checks only that the three contacts are
      on the track and that the section's end comes after its begin. */
  function NewTrainTrack(track: Railway, station: Contact, sectionBegin: Contact, sectionEnd: Contact,
                         switches: seq<Switch>): (r: Result<TrainTrack, TrackError>)
    ensures r == Failure(StationNotOnTrack) <==> station !in track
    ensures r == Failure(SectionBeginNotOnTrack) <==> station in track && sectionBegin !in track
    ensures r == Failure(SectionEndNotOnTrack) <==>
              station in track && sectionBegin in track && sectionEnd !in track
    ensures r == Failure(SectionEndNotAfterBegin) <==>
              && station in track && sectionBegin in track && sectionEnd in track
              && Find(track, sectionEnd).value <= Find(track, sectionBegin).value
    ensures r.Success? <==>
              && station in track && sectionBegin in track && sectionEnd in track
              && Find(track, sectionBegin).value < Find(track, sectionEnd).value
    ensures r.Success? ==>
              && Valid(r.value) && r.value.track == track && r.value.switches == switches
              && FirstOccurrence(track, r.value.station, station)
              && FirstOccurrence(track, r.value.sectionBegin, sectionBegin)
              && FirstOccurrence(track, r.value.sectionEnd, sectionEnd)
  {
    var stationAt, beginAt, endAt := Find(track, station), Find(track, sectionBegin), Find(track, sectionEnd);
    if stationAt.None? then Failure(StationNotOnTrack)
    else if beginAt.None? then Failure(SectionBeginNotOnTrack)
    else if endAt.None? then Failure(SectionEndNotOnTrack)
    else if endAt.value <= beginAt.value then Failure(SectionEndNotAfterBegin)
    else Success(TrainTrack(track, stationAt.value, beginAt.value, endAt.value, switches))
  }

  /** The contact at index `i`, or None when `i` is off the track (the source
      then reads an address outside the vector). */
  function ContactAt(t: TrainTrack, i: int): (c: Option<Contact>)
    ensures c.Some? <==> 0 <= i < |t.track|
    ensures c.Some? ==> c.value == t.track[i]
  {
    if 0 <= i < |t.track| then Some(t.track[i]) else None
  }

  /** traveltToStation waits for the station contact. */
  function StationContact(t: TrainTrack): (c: Contact)
    requires Valid(t)
    ensures c in t.track
  {
    t.track[t.station]
  }

  /** travelToSharedSectionStart waits for the contact SharedSectionAccessOffset before the section. */
  function SharedSectionStartContact(t: TrainTrack): (c: Option<Contact>)
    requires Valid(t)
    ensures c.Some? <==> t.sectionBegin >= SharedSectionAccessOffset
    ensures c.Some? ==> c.value == t.track[t.sectionBegin - SharedSectionAccessOffset]
  {
    ContactAt(t, t.sectionBegin - SharedSectionAccessOffset)
  }

  /** travelToSharedSectionEnd waits for the contact SharedSectionLeaveOffset after the section. */
  function SharedSectionEndContact(t: TrainTrack): (c: Option<Contact>)
    requires Valid(t)
    ensures c.Some? <==> t.sectionEnd + SharedSectionLeaveOffset < |t.track|
    ensures c.Some? ==> c.value == t.track[t.sectionEnd + SharedSectionLeaveOffset]
  {
    ContactAt(t, t.sectionEnd + SharedSectionLeaveOffset)
  }

  /** updateSwicthes waits for the contact SwitchesUpdateOffset before the section. */
  function SwitchesUpdateContact(t: TrainTrack): (c: Option<Contact>)
    requires Valid(t)
    ensures c.Some? <==> t.sectionBegin >= SwitchesUpdateOffset
    ensures c.Some? ==> c.value == t.track[t.sectionBegin - SwitchesUpdateOffset]
  {
    ContactAt(t, t.sectionBegin - SwitchesUpdateOffset)
  }

  /** A route the constructor accepts leads the train to the very contacts it
      was given: the first occurrence of the station, begin and end. */
  lemma AcceptedRouteTargetsGivenContacts(track: Railway, station: Contact, sectionBegin: Contact,
                                          sectionEnd: Contact, switches: seq<Switch>)
    requires NewTrainTrack(track, station, sectionBegin, sectionEnd, switches).Success?
    ensures var t := NewTrainTrack(track, station, sectionBegin, sectionEnd, switches).value;
            && StationContact(t) == station
            && (SharedSectionStartContact(t).Some? ==>
                  SharedSectionStartContact(t).value == track[Find(track, sectionBegin).value - SharedSectionAccessOffset])
            && (SharedSectionEndContact(t).Some? ==>
                  SharedSectionEndContact(t).value == track[Find(track, sectionEnd).value + SharedSectionLeaveOffset])
  {
  }

  /** updateSwicthes: after waiting for its contact, set every switch of the
      route once, in the order of the list. */
  method UpdateSwitches(t: TrainTrack) returns (waitFor: Option<Contact>, commands: seq<SwitchCommand>)
    requires Valid(t)
    ensures waitFor == SwitchesUpdateContact(t)
    ensures |commands| == |t.switches|
    ensures forall k :: 0 <= k < |commands| ==>
              commands[k] == SwitchCommand(t.switches[k].number, t.switches[k].direction, 0)
  {
    waitFor := SwitchesUpdateContact(t);
    commands := [];
    for k := 0 to |t.switches|
      invariant |commands| == k
      invariant forall m :: 0 <= m < k ==>
                  commands[m] == SwitchCommand(t.switches[m].number, t.switches[m].direction, 0)
    {
      var s := t.switches[k];
      commands := commands + [SwitchCommand(s.number, s.direction, 0)];
    }
  }

  /** As written, the constructor accepts a route whose shared section starts
      at the first contact, so travelToSharedSectionStart looks three contacts
      before the start of the vector. */
  lemma AcceptedRouteCanLeaveTrack()
    ensures NewTrainTrack([1, 2, 3], 1, 1, 3, []).Success?
    ensures SharedSectionStartContact(NewTrainTrack([1, 2, 3], 1, 1, 3, []).value).None?
    ensures SharedSectionEndContact(NewTrainTrack([1, 2, 3], 1, 1, 3, []).value).None?
  {
    assert Find([1, 2, 3], 1) == Some(0);
    assert [1, 2, 3][1..] == [2, 3] && [2, 3][1..] == [3];
    assert Find([1, 2, 3], 3) == Some(2);
  }

  /** The constructor with the range checks its navigation needs: besides the
      checks of NewTrainTrack, the section must start at least
      SharedSectionAccessOffset contacts into the track and end at least
      SharedSectionLeaveOffset contacts before its end. */
  function NewCheckedTrainTrack(track: Railway, station: Contact, sectionBegin: Contact, sectionEnd: Contact,
                                switches: seq<Switch>): (r: Result<TrainTrack, TrackError>)
    ensures r.Success? <==>
              && NewTrainTrack(track, station, sectionBegin, sectionEnd, switches).Success?
              && Find(track, sectionBegin).value >= SharedSectionAccessOffset
              && Find(track, sectionEnd).value + SharedSectionLeaveOffset < |track|
    ensures r.Success? ==>
              && r == NewTrainTrack(track, station, sectionBegin, sectionEnd, switches)
              && SharedSectionStartContact(r.value).Some?
              && SharedSectionEndContact(r.value).Some?
              && SwitchesUpdateContact(r.value).Some?
    ensures NewTrainTrack(track, station, sectionBegin, sectionEnd, switches).Failure? ==>
              r == NewTrainTrack(track, station, sectionBegin, sectionEnd, switches)
    ensures r == Failure(SectionTooCloseToTrackStart) <==>
              && NewTrainTrack(track, station, sectionBegin, sectionEnd, switches).Success?
              && Find(track, sectionBegin).value < SharedSectionAccessOffset
    ensures r == Failure(SectionTooCloseToTrackEnd) <==>
              && NewTrainTrack(track, station, sectionBegin, sectionEnd, switches).Success?
              && Find(track, sectionBegin).value >= SharedSectionAccessOffset
              && Find(track, sectionEnd).value + SharedSectionLeaveOffset >= |track|
  {
    var r := NewTrainTrack(track, station, sectionBegin, sectionEnd, switches);
    if r.Failure? then r
    else if r.value.sectionBegin < SharedSectionAccessOffset then Failure(SectionTooCloseToTrackStart)
    else if r.value.sectionEnd + SharedSectionLeaveOffset >= |track| then Failure(SectionTooCloseToTrackEnd)
    else r
  }
}
