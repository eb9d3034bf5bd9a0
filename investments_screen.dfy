/** The Investments screen: portfolio totals, the per-holding figures, and the submit that dispatches an edit or an add. */
module InvestmentsScreen {
  import opened Common
  import opened KeyedLists
  import opened AppContext

  /** `investments.reduce((sum, i) => sum + i.value, 0)` */
  function TotalValue(invs: seq<Investment>): real {
    if invs == [] then 0.0 else TotalValue(invs[..|invs| - 1]) + invs[|invs| - 1].value
  }

  /** `investments.reduce((sum, i) => sum + i.initialInvestment, 0)` */
  function TotalInitial(invs: seq<Investment>): real {
    if invs == [] then 0.0 else TotalInitial(invs[..|invs| - 1]) + invs[|invs| - 1].initialInvestment
  }

  /** The portfolio return in percent, 0 unless something was invested. */
  function TotalReturn(invs: seq<Investment>): (r: real)
    ensures TotalInitial(invs) <= 0.0 ==> r == 0.0
    ensures TotalInitial(invs) > 0.0 ==> r * TotalInitial(invs) == (TotalValue(invs) - TotalInitial(invs)) * 100.0
  {
    var initial := TotalInitial(invs);
    if initial > 0.0 then ((TotalValue(invs) - initial) / initial) * 100.0 else 0.0
  }

  /** The return shows as positive exactly when the portfolio is worth at least what went in (or nothing went in). */
  lemma TotalReturnSign(invs: seq<Investment>)
    ensures TotalReturn(invs) >= 0.0 <==> TotalInitial(invs) <= 0.0 || TotalValue(invs) >= TotalInitial(invs)
  {
    var initial, value := TotalInitial(invs), TotalValue(invs);
    if initial > 0.0 {
      var r := TotalReturn(invs);
      assert r * initial == (value - initial) * 100.0;
      if r >= 0.0 {
        assert r * initial >= 0.0;
      } else {
        assert r * initial < 0.0;
      }
    }
  }

  /** Adding a holding adds its value and its initial investment to the totals. */
  lemma TotalsPush(invs: seq<Investment>, x: Investment)
    ensures TotalValue(invs + [x]) == TotalValue(invs) + x.value
    ensures TotalInitial(invs + [x]) == TotalInitial(invs) + x.initialInvestment
  {
    assert (invs + [x])[..|invs|] == invs;
  }

  /** The Gain/Loss line of one holding. */
  function GainLoss(i: Investment): (g: real)
    ensures g + i.initialInvestment == i.value
  {
    i.value - i.initialInvestment
  }

  /** The green/red flag: it reads the STORED returnPercentage, not the computed gain. */
  function IsPositive(i: Investment): bool {
    i.returnPercentage >= 0.0
  }

  /** The flag and the gain can disagree: a holding can be flagged positive while losing money. */
  lemma FlagCanContradictGain()
    ensures exists i: Investment :: IsPositive(i) && GainLoss(i) < 0.0
  {
    var i := Investment("x", "X", "X", Stock, 100.0, 200.0, 5.0);
    assert IsPositive(i) && GainLoss(i) < 0.0;
  }

  /** What handleSubmit dispatches to the context. */
  datatype InvestmentCommand = UpdateCommand(investment: Investment) | AddCommand(draft: InvestmentDraft)

  /** `editInvestment ? updateInvestment({ ...editInvestment, ...data }) : addInvestment(data)` */
  function Submission(edit: Option<Investment>, data: InvestmentDraft): (cmd: InvestmentCommand)
    ensures edit.Some? <==> cmd.UpdateCommand?
    ensures edit.Some? ==> cmd.investment.id == edit.value.id && cmd.investment == data.WithId(edit.value.id)
    ensures edit.None? ==> cmd.draft == data
  {
    if edit.Some? then UpdateCommand(data.WithId(edit.value.id)) else AddCommand(data)
  }

  /** The list the context stores for a command; `now` is the add's `Date.now()` id. */
  function Dispatch(invs: seq<Investment>, cmd: InvestmentCommand, now: string): (r: seq<Investment>)
    ensures cmd.UpdateCommand? ==> |r| == |invs|
    ensures cmd.AddCommand? ==> |r| == |invs| + 1 && r[..|invs|] == invs && r[|invs|].id == now
  {
    match cmd
    case UpdateCommand(i) => ReplaceWhere(invs, InvestmentIdOf, i.id, i)
    case AddCommand(d) =>
      assert (invs + [d.WithId(now)])[..|invs|] == invs;
      invs + [d.WithId(now)]
  }

  /**
   * Editing the holding at position `k` of a list with distinct ids ends with
   * exactly that holding replaced by the form data under its old id.
   */
  lemma EditReplacesOnlyThatHolding(invs: seq<Investment>, k: nat, data: InvestmentDraft, now: string)
    requires DistinctKeys(invs, InvestmentIdOf) && k < |invs|
    ensures Dispatch(invs, Submission(Some(invs[k]), data), now) == invs[k := data.WithId(invs[k].id)]
  {
    ReplaceWhereUnique(invs, InvestmentIdOf, k, data.WithId(invs[k].id));
  }

  /** Adding appends one holding carrying the form data and the new id; the earlier ones stay as they were. */
  lemma AddAppendsOneHolding(invs: seq<Investment>, data: InvestmentDraft, now: string)
    ensures var r := Dispatch(invs, Submission(None, data), now);
      |r| == |invs| + 1 && r[..|invs|] == invs && r[|invs|] == data.WithId(now)
  {
  }

  /** handleDelete: after the Alert, 'Delete' removes the holding from the context and 'Cancel' leaves the list alone. */
  function Deletion(invs: seq<Investment>, id: string, confirmed: bool): (r: seq<Investment>)
    ensures !confirmed ==> r == invs
    ensures confirmed ==> !HasKey(r, InvestmentIdOf, id)
                          && forall i :: 0 <= i < |invs| && invs[i].id != id ==> invs[i] in r
  {
    if confirmed then RemoveKey(invs, InvestmentIdOf, id) else invs
  }
}
