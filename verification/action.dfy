/**
 * The action wrappers: list with the default output selector, lookup by id,
 * create with positional id back-assignment, delete with the count check and
 * the clearing of the ids on success.
 */
module Actions {
  import opened Entities
  import opened Rpc
  import opened Params
  import opened Checks

  const ACTION_IDS := "actionids"

  /** The decimal digit `d` as a character. */
  function DigitChar(d: nat): (c: char)
    requires d < 10
    ensures '0' <= c <= '9'
  {
    (48 + d) as char
  }

  /** The decimal representation of `n`, without leading zeros. */
  function Decimal(n: nat): (s: string)
    ensures |s| >= 1
    ensures forall i :: 0 <= i < |s| ==> '0' <= s[i] <= '9'
    ensures n > 0 ==> s[0] != '0'
    decreases n
  {
    if n < 10 then [DigitChar(n)] else Decimal(n / 10) + [DigitChar(n % 10)]
  }

  /**
   * A numeric id as the action wrapper formats it: no fraction digits, a minus
   * sign for negative values. Never the empty string.
   */
  function FormatId(n: int): (s: string)
    ensures s != ""
    ensures s[0] == '-' <==> n < 0
  {
    if n < 0 then "-" + Decimal(-n) else Decimal(n)
  }

  /** The number a string of decimal digits stands for, most significant digit first. */
  function DigitsValue(s: string): nat
    requires forall i :: 0 <= i < |s| ==> '0' <= s[i] <= '9'
  {
    if s == [] then 0 else 10 * DigitsValue(s[..|s| - 1]) + (s[|s| - 1] as int - 48)
  }

  /** The number a formatted id stands for: an optional minus sign, then decimal digits. */
  function IdValue(s: string): int
    requires s != []
    requires forall i :: 0 <= i < |s| ==> '0' <= s[i] <= '9' || (i == 0 && s[i] == '-')
  {
    if s[0] == '-' then -(DigitsValue(s[1..]) as int) else DigitsValue(s)
  }

  /** `Decimal` writes exactly the digits of `n`: reading them back gives `n`. */
  lemma {:induction false} DecimalValue(n: nat)
    ensures DigitsValue(Decimal(n)) == n
    decreases n
  {
    if n >= 10 {
      DecimalValue(n / 10);
      var s := Decimal(n);
      assert s[..|s| - 1] == Decimal(n / 10);
    }
  }

  /** Distinct numbers have distinct decimal forms. */
  lemma DecimalInjective(n: nat, m: nat)
    requires Decimal(n) == Decimal(m)
    ensures n == m
  {
    DecimalValue(n);
    DecimalValue(m);
  }

  /** Reading a formatted id back gives the number it was formatted from. */
  lemma FormatIdValue(n: int)
    ensures IdValue(FormatId(n)) == n
  {
    if n < 0 {
      DecimalValue(-n);
      assert FormatId(n)[1..] == Decimal(-n);
    } else {
      DecimalValue(n);
    }
  }

  /** Distinct returned ids are written as distinct action ids. */
  lemma FormatIdInjective(n: int, m: int)
    requires FormatId(n) == FormatId(m)
    ensures n == m
  {
    FormatIdValue(n);
    FormatIdValue(m);
  }

  /** The formatted ids of a list of numbers. */
  function FormatIds(nums: seq<JVal>): seq<string>
    requires forall i :: 0 <= i < |nums| ==> nums[i].JNum?
  {
    seq(|nums|, i requires 0 <= i < |nums| => FormatId(nums[i].n))
  }

  function ActionIds(actions: seq<Action>): seq<string>
  {
    seq(|actions|, i requires 0 <= i < |actions| => actions[i].actionId)
  }

  /** The records after create: the i-th returned id on the i-th record, the rest untouched. */
  function WithActionIds(actions: seq<Action>, ids: seq<string>): seq<Action>
    requires |ids| <= |actions|
  {
    seq(|actions|, i requires 0 <= i < |actions| =>
      if i < |ids| then actions[i].(actionId := ids[i]) else actions[i])
  }

  /** The records after a successful delete: every id cleared. */
  function ClearedActions(actions: seq<Action>): seq<Action>
  {
    seq(|actions|, i requires 0 <= i < |actions| => actions[i].(actionId := ""))
  }

  /** The shape action.create must answer with: numeric ids, no more than records sent. */
  predicate CreateReply(reply: Reply, count: nat)
  {
    && IdsReply(reply, ACTION_IDS)
    && (reply.Answered? ==>
          var ids := ReturnedIds(reply, ACTION_IDS);
          |ids| <= count && forall i :: 0 <= i < |ids| ==> ids[i].JNum?)
  }

  function GetByIdCall(id: string): Call
  {
    Call("action.get", Bag(WithDefaultOutput(map["actionids" := JStr(id)])))
  }

  method ActionGet(api: Api, params: ParamBag, decode: JVal -> Action)
    returns (res: Result<seq<Action>>)
    requires ArrayReply(api.Next(Call("action.get", Bag(WithDefaultOutput(params.entries)))))
    modifies api, params
    ensures params.entries == WithDefaultOutput(old(params.entries))
    ensures api.calls == old(api.calls) + [Call("action.get", Bag(params.entries))]
    ensures res == ListResult(api.server(|old(api.calls)|, Call("action.get", Bag(params.entries))), decode)
  {
    params.DefaultOutput();
    var reply := api.CallWithError("action.get", Bag(params.entries));
    if reply.CallFailed? {
      return Err(reply.error);
    }
    res := Ok(DecodeAll(reply.result.elems, decode));
  }

  method ActionGetById(api: Api, id: string, decode: JVal -> Action) returns (res: Result<Action>)
    requires ArrayReply(api.Next(GetByIdCall(id)))
    modifies api
    ensures api.calls == old(api.calls) + [GetByIdCall(id)]
    ensures var reply := api.server(|old(api.calls)|, GetByIdCall(id));
            && (reply.CallFailed? ==> res == Err(reply.error))
            && (reply.Answered? ==> res == ExactlyOne(DecodeAll(reply.result.elems, decode)))
  {
    var params := new ParamBag(map["actionids" := JStr(id)]);
    var actions := ActionGet(api, params, decode);
    if actions.Err? {
      return Err(actions.error);
    }
    res := ExactlyOne(actions.value);
  }

  method ActionsCreate(api: Api, actions: array<Action>) returns (err: Outcome)
    requires CreateReply(api.Next(Call("action.create", ActionList(actions[..]))), actions.Length)
    modifies api, actions
    ensures api.calls == old(api.calls) + [Call("action.create", ActionList(old(actions[..])))]
    ensures var reply := api.server(|old(api.calls)|, Call("action.create", ActionList(old(actions[..]))));
            && (reply.CallFailed? ==> err == Failure(reply.error) && actions[..] == old(actions[..]))
            && (reply.Answered? ==>
                  && err == Success
                  && actions[..] == WithActionIds(old(actions[..]), FormatIds(ReturnedIds(reply, ACTION_IDS))))
  {
    var reply := api.CallWithError("action.create", ActionList(actions[..]));
    if reply.CallFailed? {
      return Failure(reply.error);
    }
    AssignIds(actions, reply.result.fields[ACTION_IDS].elems);
    err := Success;
  }

  /** The create loop: the i-th returned id, formatted, into the i-th record. */
  method AssignIds(actions: array<Action>, ids: seq<JVal>)
    requires |ids| <= actions.Length
    requires forall i :: 0 <= i < |ids| ==> ids[i].JNum?
    modifies actions
    ensures actions[..] == WithActionIds(old(actions[..]), FormatIds(ids))
  {
    for i := 0 to |ids|
      invariant forall j :: 0 <= j < i ==> actions[j] == old(actions[j]).(actionId := FormatId(ids[j].n))
      invariant forall j :: i <= j < actions.Length ==> actions[j] == old(actions[j])
    {
      actions[i] := actions[i].(actionId := FormatId(ids[i].n));
    }
    assert actions[..] == WithActionIds(old(actions[..]), FormatIds(ids));
  }

  method ActionsDelete(api: Api, actions: array<Action>) returns (err: Outcome)
    requires IdsReply(api.Next(Call("action.delete", IdList(ActionIds(actions[..])))), ACTION_IDS)
    modifies api, actions
    ensures api.calls == old(api.calls) + [Call("action.delete", IdList(ActionIds(old(actions[..]))))]
    ensures err == DeleteAck(api.server(|old(api.calls)|, Call("action.delete", IdList(ActionIds(old(actions[..]))))),
                             ACTION_IDS, actions.Length)
    ensures err.Success? ==> actions[..] == ClearedActions(old(actions[..]))
    ensures err.Failure? ==> actions[..] == old(actions[..])
  {
    var ids := new string[actions.Length];
    for i := 0 to actions.Length
      modifies ids
      invariant forall j :: 0 <= j < i ==> ids[j] == actions[j].actionId
    {
      ids[i] := actions[i].actionId;
    }
    assert ids[..] == ActionIds(actions[..]);
    assert actions[..] == old(actions[..]);
    assert api.calls == old(api.calls);
    err := ActionsDeleteByIds(api, ids[..]);
    if err.Success? {
      for i := 0 to actions.Length
        modifies actions
        invariant forall j :: 0 <= j < i ==> actions[j] == old(actions[j]).(actionId := "")
        invariant forall j :: i <= j < actions.Length ==> actions[j] == old(actions[j])
      {
        actions[i] := actions[i].(actionId := "");
      }
    }
  }

  method ActionsDeleteByIds(api: Api, ids: seq<string>) returns (err: Outcome)
    requires IdsReply(api.Next(Call("action.delete", IdList(ids))), ACTION_IDS)
    modifies api
    ensures api.calls == old(api.calls) + [Call("action.delete", IdList(ids))]
    ensures err == DeleteAck(api.server(|old(api.calls)|, Call("action.delete", IdList(ids))), ACTION_IDS, |ids|)
  {
    var reply := api.CallWithError("action.delete", IdList(ids));
    if reply.CallFailed? {
      return Failure(reply.error);
    }
    var actionIds := reply.result.fields[ACTION_IDS].elems;
    err := CountCheck(|ids|, |actionIds|);
  }

  /** When the server returns an id for every record, every record comes back with a non-empty id. */
  lemma CreatedActionsHaveIds(actions: seq<Action>, nums: seq<JVal>)
    requires |nums| == |actions|
    requires forall i :: 0 <= i < |nums| ==> nums[i].JNum?
    ensures ActionIds(WithActionIds(actions, FormatIds(nums))) == FormatIds(nums)
    ensures forall i :: 0 <= i < |actions| ==> WithActionIds(actions, FormatIds(nums))[i].actionId != ""
  {
  }

  /**
   * Deleting what was created: the ids written by create are the ids delete
   * sends back, and after delete the records equal the cleared originals.
   */
  lemma DeleteUndoesCreate(actions: seq<Action>, ids: seq<string>)
    requires |ids| <= |actions|
    ensures ActionIds(WithActionIds(actions, ids))[..|ids|] == ids
    ensures ClearedActions(WithActionIds(actions, ids)) == ClearedActions(actions)
  {
  }
}
