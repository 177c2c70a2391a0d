/**
 * The entry resolver (bz_entry_group_find_entry): narrow a group's entries
 * to the installed ones a test accepts, and when more than one qualifies,
 * let the user pick one in a dialog.
 */
module EntryGroupUtil {
  import opened Wrappers
  import opened Entries

  const CancelResponse := "cancel"
  const NoCandidatesMessage := "BUG: No entry candidates satisfied this test condition"

  /** What the resolver hands back: an entry, or none with the error it set, if any. */
  datatype Lookup = Found(entry: Entry) | Missing(error: Option<Error>)

  /** The "Choose an Installation" dialog: its responses in order, and the special ones. */
  datatype ChoiceDialog = ChoiceDialog(
    responses: seq<string>,
    closeResponse: string,
    destructiveResponse: string,
    defaultResponse: Option<string>)

  /** An entry is a candidate when it is installed and the test accepts it. */
  predicate Qualifies(test: Test, e: Entry)
  {
    e.installed && Accepts(test, e)
  }

  /** The candidates, in store order. */
  function Candidates(entries: seq<Entry>, test: Test): seq<Entry>
  {
    if entries == [] then []
    else
      var last := entries[|entries| - 1];
      Candidates(entries[..|entries| - 1], test) + (if Qualifies(test, last) then [last] else [])
  }

  lemma {:induction false} CandidatesExactly(entries: seq<Entry>, test: Test)
    ensures forall e :: e in Candidates(entries, test) <==> e in entries && Qualifies(test, e)
  {
    if entries != [] {
      var init := entries[..|entries| - 1];
      CandidatesExactly(init, test);
      assert entries == init + [entries[|entries| - 1]];
    }
  }

  lemma {:induction false} CandidatesInStoreOrder(entries: seq<Entry>, test: Test)
    ensures IsSubsequence(Candidates(entries, test), entries)
  {
    if entries != [] {
      var init := entries[..|entries| - 1];
      var last := entries[|entries| - 1];
      CandidatesInStoreOrder(init, test);
      var c := Candidates(init, test);
      if Qualifies(test, last) {
        assert (c + [last])[..|c + [last]| - 1] == c;
      } else {
        assert entries == init + [last];
        assert Candidates(entries, test) == c;
        SubsequenceOfExtension(c, init, last);
      }
    }
  }

  /** Each qualifying entry is a candidate as often as it occurs in the store, any other never. */
  lemma {:induction false} CandidateCopies(entries: seq<Entry>, test: Test, e: Entry)
    ensures multiset(Candidates(entries, test))[e] == if Qualifies(test, e) then multiset(entries)[e] else 0
  {
    if entries != [] {
      var init := entries[..|entries| - 1];
      var last := entries[|entries| - 1];
      CandidateCopies(init, test, e);
      assert entries == init + [last];
    }
  }

  /** The unique ids of `es`, in order. */
  function UniqueIds(es: seq<Entry>): (ids: seq<string>)
    ensures |ids| == |es|
    ensures forall i :: 0 <= i < |es| ==> ids[i] == es[i].uniqueId
  {
    if es == [] then [] else UniqueIds(es[..|es| - 1]) + [es[|es| - 1].uniqueId]
  }

  /** The dialog offered for two or more candidates. */
  function ChoiceDialogFor(candidates: seq<Entry>): ChoiceDialog
  {
    ChoiceDialog(
      [CancelResponse] + UniqueIds(candidates),
      CancelResponse,
      CancelResponse,
      if candidates == [] then None else Some(candidates[0].uniqueId))
  }

  /** The first candidate whose unique id equals the response (g_strcmp0 == 0). */
  function MatchResponse(candidates: seq<Entry>, response: string): Option<Entry>
  {
    if candidates == [] then None
    else if candidates[0].uniqueId == response then Some(candidates[0])
    else MatchResponse(candidates[1..], response)
  }

  lemma {:induction false} MatchResponseIsFirst(candidates: seq<Entry>, response: string)
    ensures MatchResponse(candidates, response).None? <==>
            forall i :: 0 <= i < |candidates| ==> candidates[i].uniqueId != response
    ensures MatchResponse(candidates, response).Some? ==>
            exists k :: 0 <= k < |candidates| && candidates[k] == MatchResponse(candidates, response).value &&
                        candidates[k].uniqueId == response &&
                        forall j :: 0 <= j < k ==> candidates[j].uniqueId != response
  {
    if candidates != [] && candidates[0].uniqueId != response {
      MatchResponseIsFirst(candidates[1..], response);
      if MatchResponse(candidates[1..], response).Some? {
        var k :| 0 <= k < |candidates[1..]| && candidates[1..][k] == MatchResponse(candidates[1..], response).value &&
                 candidates[1..][k].uniqueId == response &&
                 forall j :: 0 <= j < k ==> candidates[1..][j].uniqueId != response;
        assert candidates[k + 1] == candidates[1..][k];
        forall j | 0 <= j < k + 1 ensures candidates[j].uniqueId != response {
          if j > 0 { assert candidates[j] == candidates[1..][j - 1]; }
        }
      } else {
        forall i | 0 <= i < |candidates| ensures candidates[i].uniqueId != response {
          if i > 0 { assert candidates[i] == candidates[1..][i - 1]; }
        }
      }
    }
  }

  /** What bz_entry_group_find_entry returns for the given inputs. */
  function Resolve(fetched: Fetch, test: Test, hasWindow: bool, response: Option<string>): Lookup
  {
    match fetched
    case Failure(err) => Missing(Some(err))
    case Success(entries) =>
      var c := Candidates(entries, test);
      if |c| == 0 then Missing(Some(Error(IoUnknown, NoCandidatesMessage)))
      else if |c| == 1 then Found(c[0])
      else if !hasWindow || response.None? then Missing(None)
      else
        match MatchResponse(c, response.value)
        case Some(e) => Found(e)
        case None => Missing(None)
  }

  /** The dialog the resolver presents, if any. */
  function Prompt(fetched: Fetch, test: Test, hasWindow: bool): Option<ChoiceDialog>
  {
    if fetched.Success? && |Candidates(fetched.value, test)| >= 2 && hasWindow
    then Some(ChoiceDialogFor(Candidates(fetched.value, test)))
    else None
  }

  /** The first loop: collect the qualifying entries, in store order. */
  method CollectCandidates(entries: seq<Entry>, test: Test) returns (candidates: seq<Entry>)
    ensures candidates == Candidates(entries, test)
  {
    candidates := [];
    var i := 0;
    while i < |entries|
      invariant 0 <= i <= |entries|
      invariant candidates == Candidates(entries[..i], test)
    {
      assert entries[..i + 1][..i] == entries[..i];
      if entries[i].installed && (test.None? || test.value(entries[i])) {
        candidates := candidates + [entries[i]];
      }
      i := i + 1;
    }
    assert entries[..|entries|] == entries;
  }

  /** The second loop: one response per candidate, the first one the default. */
  method BuildChoiceDialog(candidates: seq<Entry>) returns (dialog: ChoiceDialog)
    ensures dialog == ChoiceDialogFor(candidates)
  {
    var responses := [CancelResponse];
    var defaultResponse: Option<string> := None;
    var i := 0;
    while i < |candidates|
      invariant 0 <= i <= |candidates|
      invariant responses == [CancelResponse] + UniqueIds(candidates[..i])
      invariant defaultResponse == if i == 0 then None else Some(candidates[0].uniqueId)
    {
      assert candidates[..i + 1][..i] == candidates[..i];
      responses := responses + [candidates[i].uniqueId];
      if i == 0 {
        defaultResponse := Some(candidates[i].uniqueId);
      }
      i := i + 1;
    }
    assert candidates[..|candidates|] == candidates;
    dialog := ChoiceDialog(responses, CancelResponse, CancelResponse, defaultResponse);
  }

  /** The third loop: the candidate whose unique id equals the response. */
  method MatchCandidates(candidates: seq<Entry>, response: string) returns (m: Option<Entry>)
    ensures m == MatchResponse(candidates, response)
  {
    var i := 0;
    while i < |candidates|
      invariant 0 <= i <= |candidates|
      invariant MatchResponse(candidates[i..], response) == MatchResponse(candidates, response)
    {
      assert candidates[i..][1..] == candidates[i + 1..];
      if candidates[i].uniqueId == response {
        return Some(candidates[i]);
      }
      i := i + 1;
    }
    return None;
  }

  /**
   * The resolver as the source runs it. `response` is what awaiting the
   * dialog produced (None when that failed).
   */
  method FindEntry(fetched: Fetch, test: Test, hasWindow: bool, response: Option<string>)
    returns (r: Lookup, shown: Option<ChoiceDialog>)
    ensures r == Resolve(fetched, test, hasWindow, response)
    ensures shown == Prompt(fetched, test, hasWindow)
  {
    if fetched.Failure? {
      return Missing(Some(fetched.error)), None;
    }
    var candidates := CollectCandidates(fetched.value, test);
    if |candidates| == 0 {
      return Missing(Some(Error(IoUnknown, NoCandidatesMessage))), None;
    } else if |candidates| == 1 {
      return Found(candidates[0]), None;
    } else if !hasWindow {
      return Missing(None), None;
    }
    var dialog := BuildChoiceDialog(candidates);
    shown := Some(dialog);
    r := Missing(None);
    if response.Some? {
      var m := MatchCandidates(candidates, response.value);
      if m.Some? {
        r := Found(m.value);
      }
    }
  }

  // ---------------------------------------------------------------------
  // Properties of the resolver

  /** Any entry that is returned is installed, accepted by the test, and one of the fetched entries. */
  lemma FoundQualifies(fetched: Fetch, test: Test, hasWindow: bool, response: Option<string>)
    requires Resolve(fetched, test, hasWindow, response).Found?
    ensures fetched.Success?
    ensures var e := Resolve(fetched, test, hasWindow, response).entry;
            e in fetched.value && e.installed && Accepts(test, e)
  {
    var c := Candidates(fetched.value, test);
    CandidatesExactly(fetched.value, test);
    MatchResponseIsFirst(c, if response.Some? then response.value else "");
  }

  /** A failed fetch is passed through, and no dialog is shown. */
  lemma FetchErrorPassedThrough(err: Error, test: Test, hasWindow: bool, response: Option<string>)
    ensures Resolve(Failure(err), test, hasWindow, response) == Missing(Some(err))
    ensures Prompt(Failure(err), test, hasWindow) == None
  {
  }

  /** No candidate at all: nothing is returned and G_IO_ERROR_UNKNOWN is set. */
  lemma NoCandidateSetsUnknown(entries: seq<Entry>, test: Test, hasWindow: bool, response: Option<string>)
    requires forall e :: e in entries ==> !Qualifies(test, e)
    ensures Resolve(Success(entries), test, hasWindow, response).Missing?
    ensures Resolve(Success(entries), test, hasWindow, response).error == Some(Error(IoUnknown, NoCandidatesMessage))
    ensures Prompt(Success(entries), test, hasWindow) == None
  {
    CandidatesExactly(entries, test);
    var c := Candidates(entries, test);
    if |c| > 0 {
      assert c[0] in c;
    }
  }

  /** Exactly one qualifying entry: it is returned and no dialog is shown. */
  lemma SingleCandidateReturned(entries: seq<Entry>, test: Test, hasWindow: bool, response: Option<string>, k: nat)
    requires k < |entries| && Qualifies(test, entries[k])
    requires forall j :: 0 <= j < |entries| && j != k ==> !Qualifies(test, entries[j])
    ensures Resolve(Success(entries), test, hasWindow, response) == Found(entries[k])
    ensures Prompt(Success(entries), test, hasWindow) == None
  {
    SingleCandidate(entries, test, k);
  }

  lemma {:induction false} SingleCandidate(entries: seq<Entry>, test: Test, k: nat)
    requires k < |entries| && Qualifies(test, entries[k])
    requires forall j :: 0 <= j < |entries| && j != k ==> !Qualifies(test, entries[j])
    ensures Candidates(entries, test) == [entries[k]]
  {
    var init := entries[..|entries| - 1];
    if k == |entries| - 1 {
      NoneQualify(init, test);
    } else {
      SingleCandidate(init, test, k);
    }
  }

  lemma {:induction false} NoneQualify(entries: seq<Entry>, test: Test)
    requires forall j :: 0 <= j < |entries| ==> !Qualifies(test, entries[j])
    ensures Candidates(entries, test) == []
  {
    if entries != [] {
      NoneQualify(entries[..|entries| - 1], test);
    }
  }

  /** Several candidates and no window: nothing is returned and the error is left unset. */
  lemma ManyWithoutWindowIsSilent(entries: seq<Entry>, test: Test, response: Option<string>)
    requires |Candidates(entries, test)| >= 2
    ensures Resolve(Success(entries), test, false, response) == Missing(None)
    ensures Prompt(Success(entries), test, false) == None
  {
  }

  /**
   * Several candidates and a window: the dialog offers "cancel" (its close and
   * destructive response) and one response per candidate's unique id, the
   * first candidate's being the default; the candidate with the chosen id is
   * returned, and any other response gives no entry and no error.
   */
  lemma ManyWithWindowAsks(entries: seq<Entry>, test: Test, response: Option<string>)
    requires |Candidates(entries, test)| >= 2
    ensures var c := Candidates(entries, test);
            var d := Prompt(Success(entries), test, true);
            && d.Some?
            && d.value.closeResponse == CancelResponse
            && d.value.destructiveResponse == CancelResponse
            && d.value.responses[0] == CancelResponse
            && |d.value.responses| == |c| + 1
            && (forall i :: 0 <= i < |c| ==> d.value.responses[i + 1] == c[i].uniqueId)
            && d.value.defaultResponse == Some(c[0].uniqueId)
    ensures var r := Resolve(Success(entries), test, true, response);
            && (r.Found? ==> response.Some? && r.entry.uniqueId == response.value && r.entry in Candidates(entries, test))
            && (r.Missing? ==> r.error.None?)
            && (response.Some? && (exists e :: e in Candidates(entries, test) && e.uniqueId == response.value) ==> r.Found?)
  {
    var c := Candidates(entries, test);
    assert Prompt(Success(entries), test, true) == Some(ChoiceDialogFor(c));
    ChoiceDialogShape(c);
    if response.Some? {
      MatchFindsCandidate(c, response.value);
    }
  }

  lemma ChoiceDialogShape(c: seq<Entry>)
    requires |c| >= 1
    ensures var d := ChoiceDialogFor(c);
            && d.closeResponse == CancelResponse
            && d.destructiveResponse == CancelResponse
            && d.responses[0] == CancelResponse
            && |d.responses| == |c| + 1
            && (forall i :: 0 <= i < |c| ==> d.responses[i + 1] == c[i].uniqueId)
            && d.defaultResponse == Some(c[0].uniqueId)
  {
    var ids := UniqueIds(c);
    assert forall i :: 0 <= i < |c| ==> ([CancelResponse] + ids)[i + 1] == ids[i];
  }

  lemma MatchFindsCandidate(c: seq<Entry>, response: string)
    ensures var m := MatchResponse(c, response);
            && (m.Some? ==> m.value in c && m.value.uniqueId == response)
            && ((exists e :: e in c && e.uniqueId == response) ==> m.Some?)
  {
    MatchResponseIsFirst(c, response);
    if exists e :: e in c && e.uniqueId == response {
      var e :| e in c && e.uniqueId == response;
      var i :| 0 <= i < |c| && c[i] == e;
    }
  }
}
