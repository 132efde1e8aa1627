/**
 * The response bodies and the status rules the handlers apply: how
 * `respond` and `respondBool` fill their two fields, how ApplySettings and
 * DeleteUsers turn per-user failures into a status code, how the email
 * handlers answer a failed save, and the ExtendExpiry guard.
 */
module Responses {
  import opened Basics

  /** stringResponse: exactly one of the two fields carries the message. */
  datatype StringResponse = StringResponse(response: string, error: string)

  /** boolResponse. */
  datatype BoolResponse = BoolResponse(success: bool, error: bool)

  /** respond(code, message): the message goes to Response on 200/204 and to Error on any other code. */
  function Respond(code: int, message: string): (r: StringResponse)
    ensures IsSuccessStatus(code) ==> r.response == message && r.error == ""
    ensures !IsSuccessStatus(code) ==> r.error == message && r.response == ""
  {
    if IsSuccessStatus(code) then StringResponse(message, "") else StringResponse("", message)
  }

  /** respondBool(code, val): Success mirrors `val`, Error its negation, independently of the code. */
  function RespondBool(code: int, val: bool): (r: BoolResponse)
    ensures r.success == val && r.error == !val
  {
    if !val then BoolResponse(false, true) else BoolResponse(true, false)
  }

  /** The text a client reads back from a stringResponse. */
  function MessageOf(r: StringResponse): string
  {
    r.response + r.error
  }

  /** A client recovers the message from either field, and the code decides which field holds it. */
  lemma RespondRoundTrip(code: int, message: string)
    ensures MessageOf(Respond(code, message)) == message
    ensures message != "" ==> (Respond(code, message).response != "" <==> IsSuccessStatus(code))
  {
    var r := Respond(code, message);
    if IsSuccessStatus(code) {
      assert r.response + r.error == message + "";
    } else {
      assert r.response + r.error == "" + message;
    }
  }

  /** A boolResponse always has exactly one of its two flags set. */
  lemma RespondBoolExclusive(code: int, val: bool)
    ensures RespondBool(code, val).success != RespondBool(code, val).error
  {
  }

  /**
   * ApplySettings: 500 when the policy step failed for every user in the
   * request, or the homescreen step did; 200 otherwise. `policyFailed` and
   * `homescreenFailed` are the user IDs recorded in the two error maps.
   */
  function ApplySettingsStatus(applyTo: seq<string>, policyFailed: set<string>, homescreenFailed: set<string>): (code: int)
    ensures code == 500 <==> |policyFailed| == |applyTo| || |homescreenFailed| == |applyTo|
    ensures code == 200 || code == 500
  {
    if |policyFailed| == |applyTo| || |homescreenFailed| == |applyTo| then 500 else 200
  }

  /** An ApplySettings request naming no users is answered 500, since zero failures equal zero users. */
  lemma ApplySettingsEmptyRequest()
    ensures ApplySettingsStatus([], {}, {}) == 500
  {
  }

  /** A request one of whose users got both steps applied is answered 200. */
  lemma ApplySettingsPartialSuccess(applyTo: seq<string>, policyFailed: set<string>, homescreenFailed: set<string>)
    requires policyFailed <= set u | u in applyTo
    requires homescreenFailed <= set u | u in applyTo
    requires exists u :: u in applyTo && u !in policyFailed && u !in homescreenFailed
    ensures ApplySettingsStatus(applyTo, policyFailed, homescreenFailed) == 200
  {
    var listed := set u | u in applyTo;
    var u :| u in applyTo && u !in policyFailed && u !in homescreenFailed;
    ListedCardinality(applyTo);
    ProperSubsetSmaller(policyFailed, listed, u);
    ProperSubsetSmaller(homescreenFailed, listed, u);
  }

  /**
   * The sizes are compared with the length of the request, not with the
   * number of distinct users: a request naming one user twice is answered
   * 200 even when both steps failed for that user.
   */
  lemma ApplySettingsRepeatedUser()
    ensures ApplySettingsStatus(["u", "u"], {"u"}, {"u"}) == 200
  {
  }

  lemma ProperSubsetSmaller(a: set<string>, b: set<string>, x: string)
    requires a <= b && x in b && x !in a
    ensures |a| < |b|
  {
    assert b == a + (b - a);
    assert x in b - a;
  }

  /** A list has at most as many distinct elements as entries, and exactly as many when they are distinct. */
  lemma {:induction false} ListedCardinality(s: seq<string>)
    ensures |set u | u in s| <= |s|
    ensures (forall i, j :: 0 <= i < j < |s| ==> s[i] != s[j]) ==> |set u | u in s| == |s|
  {
    if s != [] {
      var tail := s[1..];
      ListedCardinality(tail);
      assert (set u | u in s) == (set u | u in tail) + {s[0]};
      if forall i, j :: 0 <= i < j < |s| ==> s[i] != s[j] {
        assert forall i, j :: 0 <= i < j < |tail| ==> tail[i] != tail[j] by {
          forall i, j | 0 <= i < j < |tail| ensures tail[i] != tail[j] {
            assert tail[i] == s[i + 1] && tail[j] == s[j + 1];
          }
        }
        assert s[0] !in tail by {
          forall k | 0 <= k < |tail| ensures tail[k] != s[0] {
            assert tail[k] == s[k + 1];
          }
        }
      }
    }
  }

  /** How DeleteUsers answers. */
  datatype DeleteAnswer =
    | AllDeleted                    // respondBool(200, true)
    | AllFailed                     // respondBool(500, false), every listed user failed
    | SomeFailed(failed: set<string>) // gc.JSON(500, errors)

  function DeleteAnswerStatus(a: DeleteAnswer): int
  {
    if a.AllDeleted? then 200 else 500
  }

  /**
   * DeleteUsers as written: `len(errors) == len(req.Users)` is tested first,
   * so an empty request takes the all-failed branch, which then reads
   * `req.Users[0]` and panics. The boolean is that panic.
   */
  function DeleteUsersAnswerAsWritten(users: seq<string>, failed: set<string>): (r: (DeleteAnswer, bool))
    requires failed <= set u | u in users
    ensures r.1 <==> users == []
  {
    if |failed| == |users| then (AllFailed, users == [])
    else if |failed| != 0 then (SomeFailed(failed), false)
    else (AllDeleted, false)
  }

  /** The empty request that the as-written rule rejects with 500 and a panic. */
  lemma DeleteNobodyAsWritten()
    ensures DeleteUsersAnswerAsWritten([], {}) == (AllFailed, true)
    ensures DeleteAnswerStatus(DeleteUsersAnswerAsWritten([], {}).0) == 500
  {
  }

  /** DeleteUsers with the empty request treated as nothing having failed. */
  function DeleteUsersAnswer(users: seq<string>, failed: set<string>): (r: DeleteAnswer)
    requires failed <= set u | u in users
    ensures r.AllFailed? ==> users != [] && |failed| == |users|
    ensures r.SomeFailed? ==> r.failed == failed
  {
    if users != [] && |failed| == |users| then AllFailed
    else if |failed| != 0 then SomeFailed(failed)
    else AllDeleted
  }

  /** The request succeeds exactly when no listed user failed, and it agrees with the source on every non-empty request. */
  lemma DeleteUsersAnswerCorrect(users: seq<string>, failed: set<string>)
    requires failed <= set u | u in users
    ensures DeleteAnswerStatus(DeleteUsersAnswer(users, failed)) == 200 <==> failed == {}
    ensures users != [] ==> DeleteUsersAnswer(users, failed) == DeleteUsersAnswerAsWritten(users, failed).0
  {
    if users == [] {
      assert failed == {};
    }
  }

  /**
   * SetAccountsAdmin and ModifyLabels after the map update, as written: a
   * failed save writes a 500 response and then falls through to the 204
   * success response as well.
   */
  function EmailStoreResponsesAsWritten(storeOk: bool): (codes: seq<int>)
    ensures |codes| >= 1 && codes[|codes| - 1] == 204
  {
    if storeOk then [204] else [500, 204]
  }

  /** The failed save that produces two responses, the second one claiming success. */
  lemma EmailStoreFailureAnswersTwice()
    ensures EmailStoreResponsesAsWritten(false) == [500, 204]
    ensures IsSuccessStatus(EmailStoreResponsesAsWritten(false)[1])
  {
  }

  /** The same step with the missing return restored: one response, a success exactly when the save succeeded. */
  function EmailStoreResponses(storeOk: bool): (codes: seq<int>)
    ensures |codes| == 1
    ensures IsSuccessStatus(codes[0]) <==> storeOk
    ensures codes[0] == 500 || codes[0] == 204
  {
    if storeOk then [204] else [500]
  }

  /** The corrected step answers exactly as the source does whenever the save succeeds. */
  lemma EmailStoreResponsesAgree(storeOk: bool)
    ensures storeOk ==> EmailStoreResponses(storeOk) == EmailStoreResponsesAsWritten(storeOk)
    ensures !storeOk ==> EmailStoreResponses(storeOk) == EmailStoreResponsesAsWritten(storeOk)[..1]
  {
  }

  /** ExtendExpiry rejects a request none of whose four offsets is positive. */
  predicate NoExtension(months: int, days: int, hours: int, minutes: int)
  {
    months <= 0 && days <= 0 && hours <= 0 && minutes <= 0
  }
}
