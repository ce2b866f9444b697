/** The meetings store of js/meetings.js (MeetingsManager): the meeting list, its local
    copy in browser storage, the debounced write to the server, and the load policy that
    prefers the server. */
module Meetings {
  import opened Common
  import opened Strings
  import opened Seqs

  datatype ActionItem = ActionItem(title: string, assignee: string, dueDate: string)

  datatype Meeting = Meeting(
    id: string, title: string, datetime: string, project: string, participants: string,
    transcript: string, summary: string, minutes: string, actionItems: seq<ActionItem>,
    teamsId: Option<string>, teamsRecordingUrl: Option<string>, createdAt: string, updatedAt: string)

  /** The form data addMeeting receives; absent fields are None. */
  datatype MeetingInput = MeetingInput(
    title: string, datetime: Option<string>, project: Option<string>, participants: Option<string>,
    transcript: Option<string>, summary: Option<string>, minutes: Option<string>,
    actionItems: Option<seq<ActionItem>>, teamsId: Option<string>, teamsRecordingUrl: Option<string>)

  /** The `updates` object of updateMeeting: the fields it carries.  Its updatedAt, if
      any, is overwritten by the refresh, so it is not a field here. */
  datatype MeetingPatch = MeetingPatch(
    id: Option<string>, title: Option<string>, datetime: Option<string>, project: Option<string>,
    participants: Option<string>, transcript: Option<string>, summary: Option<string>,
    minutes: Option<string>, actionItems: Option<seq<ActionItem>>, teamsId: Option<Option<string>>,
    teamsRecordingUrl: Option<Option<string>>, createdAt: Option<string>)

  /** The outcome of `fetch('/api/data/meetings')`: a failure (network error, non-OK
      status or unparsable body) or the list the server holds. */
  datatype Fetched = FetchFailed | FetchOk(data: seq<Meeting>)

  /** The meeting addMeeting builds: '' for missing text fields, the current time for a
      missing datetime, [] for missing action items and null for the Teams fields. */
  function NewMeeting(d: MeetingInput, id: string, now: string): (m: Meeting)
    ensures m.id == id && m.title == d.title && m.createdAt == now && m.updatedAt == now
    ensures m.datetime == OrDefault(d.datetime, now)
    ensures m.project == OrDefault(d.project, "") && m.participants == OrDefault(d.participants, "")
    ensures m.transcript == OrDefault(d.transcript, "") && m.summary == OrDefault(d.summary, "")
    ensures m.minutes == OrDefault(d.minutes, "")
    ensures m.actionItems == d.actionItems.GetOr([])
    ensures m.teamsId == OrNull(d.teamsId) && m.teamsRecordingUrl == OrNull(d.teamsRecordingUrl)
  {
    Meeting(id, d.title, OrDefault(d.datetime, now), OrDefault(d.project, ""),
      OrDefault(d.participants, ""), OrDefault(d.transcript, ""), OrDefault(d.summary, ""),
      OrDefault(d.minutes, ""), d.actionItems.GetOr([]), OrNull(d.teamsId),
      OrNull(d.teamsRecordingUrl), now, now)
  }

  /** `{...m, ...updates, updatedAt: now}`. */
  function MergeMeeting(m: Meeting, p: MeetingPatch, now: string): (r: Meeting)
    ensures r.updatedAt == now
    ensures r.id == p.id.GetOr(m.id) && r.title == p.title.GetOr(m.title)
    ensures r.datetime == p.datetime.GetOr(m.datetime) && r.project == p.project.GetOr(m.project)
    ensures r.participants == p.participants.GetOr(m.participants)
    ensures r.transcript == p.transcript.GetOr(m.transcript) && r.summary == p.summary.GetOr(m.summary)
    ensures r.minutes == p.minutes.GetOr(m.minutes) && r.actionItems == p.actionItems.GetOr(m.actionItems)
    ensures r.teamsId == p.teamsId.GetOr(m.teamsId)
    ensures r.teamsRecordingUrl == p.teamsRecordingUrl.GetOr(m.teamsRecordingUrl)
    ensures r.createdAt == p.createdAt.GetOr(m.createdAt)
    ensures p == MeetingPatch(None, None, None, None, None, None, None, None, None, None, None, None) ==>
      r == m.(updatedAt := now)
  {
    Meeting(p.id.GetOr(m.id), p.title.GetOr(m.title), p.datetime.GetOr(m.datetime),
      p.project.GetOr(m.project), p.participants.GetOr(m.participants),
      p.transcript.GetOr(m.transcript), p.summary.GetOr(m.summary), p.minutes.GetOr(m.minutes),
      p.actionItems.GetOr(m.actionItems), p.teamsId.GetOr(m.teamsId),
      p.teamsRecordingUrl.GetOr(m.teamsRecordingUrl), p.createdAt.GetOr(m.createdAt), now)
  }

  /** Applying the same update twice gives what applying it once gives. */
  lemma MergeMeetingIdempotent(m: Meeting, p: MeetingPatch, now: string)
    ensures MergeMeeting(MergeMeeting(m, p, now), p, now) == MergeMeeting(m, p, now)
  {
  }

  function IndexOfMeeting(ms: seq<Meeting>, id: string): (i: int)
    ensures -1 <= i < |ms|
    ensures i >= 0 ==> ms[i].id == id && forall j :: 0 <= j < i ==> ms[j].id != id
    ensures i == -1 ==> forall j :: 0 <= j < |ms| ==> ms[j].id != id
  {
    FindIndex(ms, (m: Meeting) => m.id == id)
  }

  /** getMeeting: the first meeting with that id. */
  function MeetingById(ms: seq<Meeting>, id: string): (r: Option<Meeting>)
    ensures r.Some? <==> exists j :: 0 <= j < |ms| && ms[j].id == id
    ensures r.Some? ==> r.value in ms && r.value.id == id
    ensures r.Some? ==> exists k :: 0 <= k < |ms| && ms[k] == r.value && forall j :: 0 <= j < k ==> ms[j].id != id
  {
    var i := IndexOfMeeting(ms, id);
    if i == -1 then None else Some(ms[i])
  }

  predicate HasActions(m: Meeting) {
    |m.actionItems| > 0
  }

  /** getMeetingsWithActions: the meetings with at least one action item, in order. */
  function WithActions(ms: seq<Meeting>): (r: seq<Meeting>)
    ensures |r| <= |ms|
    ensures forall m :: m in r <==> m in ms && |m.actionItems| > 0
  {
    FilterMembersAll(ms, HasActions);
    Filter(ms, HasActions)
  }

  /** A meeting matches a lower-cased query in its title, project or participants, or in
      its transcript when there is one. */
  predicate MatchesLowered(m: Meeting, q: string) {
    Contains(Lower(m.title), q) || Contains(Lower(m.project), q) || Contains(Lower(m.participants), q)
    || (m.transcript != "" && Contains(Lower(m.transcript), q))
  }

  function MatchesQuery(q: string): Meeting -> bool {
    m => MatchesLowered(m, q)
  }

  /** searchMeetings: the meetings matching the query case-insensitively, in order. */
  function Search(ms: seq<Meeting>, query: string): (r: seq<Meeting>)
    ensures |r| <= |ms|
    ensures forall m :: m in r <==> m in ms && MatchesLowered(m, Lower(query))
  {
    FilterMembersAll(ms, MatchesQuery(Lower(query)));
    Filter(ms, MatchesQuery(Lower(query)))
  }

  /** The search ignores the case of the query, and the empty query finds every meeting. */
  lemma SearchProperties(ms: seq<Meeting>, query: string)
    ensures Search(ms, Lower(query)) == Search(ms, query)
    ensures Search(ms, "") == ms
  {
    LowerIdempotent(query);
    forall i | 0 <= i < |ms| ensures MatchesQuery(Lower(""))(ms[i]) {
      ContainsEmpty(Lower(ms[i].title));
    }
    FilterAll(ms, MatchesQuery(Lower("")));
  }

  /** loadFromStorage: the parsed local copy, or no meetings when it is absent or
      unparsable. */
  function LocalMeetings(local: Stored<seq<Meeting>>): (r: seq<Meeting>)
    ensures local.Parsed? ==> r == local.value
    ensures !local.Parsed? ==> r == []
  {
    if local.Parsed? then local.value else []
  }

  /** The meetings init ends with: a non-empty server list wins, otherwise the local copy. */
  function InitialMeetings(fetched: Fetched, local: Stored<seq<Meeting>>): seq<Meeting> {
    if fetched.FetchOk? && |fetched.data| > 0 then fetched.data else LocalMeetings(local)
  }

  /** Whether init schedules a write to the server: only when the server answered with an
      empty list and the local copy has meetings to migrate. */
  predicate InitPushesUp(fetched: Fetched, local: Stored<seq<Meeting>>) {
    fetched.FetchOk? && |fetched.data| == 0 && |LocalMeetings(local)| > 0
  }

  /** The load policy case by case. */
  lemma LoadPolicy(fetched: Fetched, local: Stored<seq<Meeting>>)
    ensures fetched.FetchOk? && fetched.data != [] ==>
      InitialMeetings(fetched, local) == fetched.data && !InitPushesUp(fetched, local)
    ensures fetched.FetchOk? && fetched.data == [] ==>
      InitialMeetings(fetched, local) == LocalMeetings(local)
      && (InitPushesUp(fetched, local) <==> LocalMeetings(local) != [])
    ensures fetched.FetchFailed? ==>
      InitialMeetings(fetched, local) == LocalMeetings(local) && !InitPushesUp(fetched, local)
    ensures !local.Parsed? && !(fetched.FetchOk? && fetched.data != []) ==> InitialMeetings(fetched, local) == []
  {
  }

  class MeetingsManager {
    var meetings: seq<Meeting>
    /** localStorage['meetings_data_v1'] */
    var local: Stored<seq<Meeting>>
    /** A debounced server write is scheduled and has not fired yet. */
    var pendingWrite: bool
    /** What the server last received from this page. */
    var serverCopy: Option<seq<Meeting>>

    constructor (local: Stored<seq<Meeting>>)
      ensures meetings == [] && this.local == local && !pendingWrite && serverCopy == None
    {
      meetings := [];
      this.local := local;
      pendingWrite := false;
      serverCopy := None;
    }

    method LoadFromStorage()
      modifies this`meetings
      ensures meetings == LocalMeetings(local)
    {
      if local.Parsed? {
        meetings := local.value;
      } else {
        meetings := [];
      }
    }

    /** saveToServer: the local copy is written at once, and the scheduled server write,
        if any, is replaced by a new one, so at most one is ever pending. */
    method SaveToServer()
      modifies this`local, this`pendingWrite
      ensures local == Parsed(meetings) && pendingWrite
    {
      pendingWrite := true;
      local := Parsed(meetings);
    }

    /** The scheduled write firing: it sends the list as it is when it fires, so edits made
        while it waited go along.  `ok` is whether the server accepted it. */
    method FireScheduledWrite(ok: bool)
      requires pendingWrite
      modifies this`pendingWrite, this`serverCopy
      ensures !pendingWrite
      ensures ok ==> serverCopy == Some(meetings)
      ensures !ok ==> serverCopy == old(serverCopy)
    {
      pendingWrite := false;
      if ok {
        serverCopy := Some(meetings);
      }
    }

    /** saveToStorage: the local write followed by saveToServer. */
    method SaveToStorage()
      modifies this`local, this`pendingWrite
      ensures local == Parsed(meetings) && pendingWrite
    {
      local := Parsed(meetings);
      SaveToServer();
    }

    /** init: loadFromServer, falling back to loadFromStorage when the fetch fails. */
    method Init(fetched: Fetched) returns (serverLoaded: bool)
      modifies this`meetings, this`local, this`pendingWrite
      ensures serverLoaded <==> fetched.FetchOk?
      ensures meetings == InitialMeetings(fetched, old(local))
      ensures InitPushesUp(fetched, old(local)) ==> pendingWrite && local == Parsed(meetings)
      ensures !InitPushesUp(fetched, old(local)) ==> pendingWrite == old(pendingWrite) && local == old(local)
    {
      if fetched.FetchOk? {
        if |fetched.data| > 0 {
          meetings := fetched.data;
        } else {
          LoadFromStorage();
          if |meetings| > 0 {
            SaveToServer();
          }
        }
        serverLoaded := true;
      } else {
        serverLoaded := false;
        LoadFromStorage();
      }
    }

    /** addMeeting: the new meeting goes first and the rest keep their order. */
    method AddMeeting(d: MeetingInput, id: string, now: string) returns (m: Meeting)
      modifies this`meetings, this`local, this`pendingWrite
      ensures m == NewMeeting(d, id, now)
      ensures meetings == [m] + old(meetings) && |meetings| == |old(meetings)| + 1
      ensures local == Parsed(meetings) && pendingWrite
    {
      m := NewMeeting(d, id, now);
      meetings := [m] + meetings;
      SaveToStorage();
    }

    /** updateMeeting: merges into the first meeting with that id; None and no change for
        an unknown id. */
    method UpdateMeeting(id: string, updates: MeetingPatch, now: string) returns (r: Option<Meeting>)
      modifies this`meetings, this`local, this`pendingWrite
      ensures var i := IndexOfMeeting(old(meetings), id);
        if i == -1 then r == None && meetings == old(meetings) && local == old(local)
          && pendingWrite == old(pendingWrite)
        else (meetings == old(meetings)[i := MergeMeeting(old(meetings)[i], updates, now)]
          && r == Some(meetings[i]) && local == Parsed(meetings) && pendingWrite)
    {
      var i := IndexOfMeeting(meetings, id);
      if i != -1 {
        meetings := meetings[i := MergeMeeting(meetings[i], updates, now)];
        SaveToStorage();
        r := Some(meetings[i]);
      } else {
        r := None;
      }
    }

    /** deleteMeeting: removes the first meeting with that id and answers true; false and
        no change for an unknown id. */
    method DeleteMeeting(id: string) returns (ok: bool)
      modifies this`meetings, this`local, this`pendingWrite
      ensures var i := IndexOfMeeting(old(meetings), id);
        if i == -1 then !ok && meetings == old(meetings) && local == old(local)
          && pendingWrite == old(pendingWrite)
        else ok && meetings == RemoveAt(old(meetings), i) && local == Parsed(meetings) && pendingWrite
    {
      var i := IndexOfMeeting(meetings, id);
      if i != -1 {
        meetings := RemoveAt(meetings, i);
        SaveToStorage();
        ok := true;
      } else {
        ok := false;
      }
    }
  }

  /** Two saves before the timer fires cost one server write, and it carries the later
      list. */
  method TwoSavesOneWrite(mm: MeetingsManager, d: MeetingInput, id: string, now: string)
    modifies mm
    ensures mm.serverCopy == Some([NewMeeting(d, id, now)] + old(mm.meetings))
    ensures !mm.pendingWrite
  {
    mm.SaveToServer();
    var _ := mm.AddMeeting(d, id, now);
    mm.FireScheduledWrite(true);
  }
}
