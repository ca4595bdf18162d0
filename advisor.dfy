/**
 * The advice provider (services/geminiService.ts), reduced to what the rest
 * of the application sees: either the provider's parsed answer, or a fixed
 * fallback when the call or the parse fails.
 */
module Gemini {
  import opened Types

  /** How the provider call ended: a parsed answer, or a thrown error. */
  datatype Reply = Parsed(insight: AIInsight) | Failed

  const FallbackSummary := "I couldn't analyze your data right now. Keep tracking your expenses in Rupees to see patterns!"
  const FallbackTips := ["Review your monthly subscriptions", "Try the 50/30/20 rule", "Set a weekly spending limit"]

  /** `getFinancialAdvice`: always an insight, never an error. */
  function GetFinancialAdvice(reply: Reply): (r: AIInsight)
    ensures reply.Parsed? ==> r == reply.insight
    ensures reply.Failed? ==> r.summary == FallbackSummary && |r.tips| == 3 && r.healthScore == 50
  {
    match reply
    case Parsed(insight) => insight
    case Failed => AIInsight(FallbackSummary, FallbackTips, 50)
  }
}

/**
 * The advisor panel (components/AIAdvisor.tsx): an `insight` that starts
 * absent and a `loading` flag. A fetch is split into its two halves: starting
 * it (set `loading`, send the current list) and its completion (store the
 * answer wholesale, clear `loading`). Other transitions may come between the
 * two, including the start of a second fetch, since the effect does not look
 * at `loading`; completions arrive in the order their requests were sent.
 */
module Advisor {
  import opened Wrappers
  import opened Types
  import Gemini

  /** What the panel shows: the pulsing skeleton, the insight, or the prompt with "Refresh Analysis". */
  datatype View = Skeleton | Report(insight: AIInsight) | Prompt

  class AIAdvisor {
    var transactions: seq<Transaction>
    var insight: Option<AIInsight>
    var loading: bool

    /** Mounting: no insight, not loading. React then runs the effect, i.e. `TransactionsChanged`. */
    constructor (ts: seq<Transaction>)
      ensures transactions == ts && insight == None && !loading
    {
      transactions, insight, loading := ts, None, false;
    }

    /** The render branches (lines 43-95): loading wins over the insight, the prompt is the rest. */
    function CurrentView(): (v: View)
      reads this
      ensures v.Skeleton? <==> loading
      ensures v.Report? <==> !loading && insight.Some?
      ensures v.Report? ==> v.insight == insight.value
      ensures v.Prompt? <==> !loading && insight.None?
    {
      if loading then Skeleton
      else if insight.Some? then Report(insight.value)
      else Prompt
    }

    /**
     * The first half of `fetchAdvice`: with no transactions nothing happens;
     * otherwise `loading` is set and the current list is sent to the provider.
     */
    method FetchAdvice() returns (request: Option<seq<Transaction>>)
      modifies this`loading
      ensures transactions == [] ==> request == None && loading == old(loading)
      ensures transactions != [] ==> request == Some(transactions) && loading
      ensures insight == old(insight)
    {
      if |transactions| == 0 {
        return None;
      }
      loading := true;
      request := Some(transactions);
    }

    /**
     * The second half of `fetchAdvice`: the answer replaces any earlier
     * insight, and loading ends. It does not require `loading`: when two
     * fetches overlap, the second completion finds it already cleared.
     */
    method ReceiveAdvice(reply: Gemini.Reply)
      modifies this`insight, this`loading
      ensures insight == Some(Gemini.GetFinancialAdvice(reply)) && !loading
      ensures CurrentView() == Report(Gemini.GetFinancialAdvice(reply))
    {
      insight := Some(Gemini.GetFinancialAdvice(reply));
      loading := false;
    }

    /**
     * The effect on a new transaction list (lines 22-27): it fetches only when
     * there are more than two transactions and no insight yet, so once an
     * insight exists no list change fetches again.
     */
    method TransactionsChanged(ts: seq<Transaction>) returns (request: Option<seq<Transaction>>)
      modifies this`transactions, this`loading
      ensures transactions == ts
      ensures request.Some? <==> |ts| > 2 && old(insight).None?
      ensures request.Some? ==> request.value == ts && loading
      ensures request.None? ==> loading == old(loading)
      ensures insight == old(insight)
    {
      transactions := ts;
      if |ts| > 2 && insight.None? {
        request := FetchAdvice();
      } else {
        request := None;
      }
    }

    /** The "Refresh Analysis" button, rendered only in the prompt branch. */
    method Refresh() returns (request: Option<seq<Transaction>>)
      requires CurrentView() == Prompt
      modifies this`loading
      ensures transactions == [] ==> request == None && CurrentView() == Prompt
      ensures transactions != [] ==> request == Some(transactions) && CurrentView() == Skeleton
    {
      request := FetchAdvice();
    }
  }
}
