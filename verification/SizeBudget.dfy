/**
 * The size budget of a document (internal/domain/service/room.go, `applyWouldExceedMaxDocBytes`): a
 * cheap estimate decides most updates, a full re-encode the rest. How large a document encodes, and how
 * long an update the observer reports for a change, are left open but for two stated bounds.
 */
module SizeBudget {
  import opened Crdt

  const SKIP_SLACK := 1024

  /** An applied change grows the encoded document by no more than the length the observer reports for it. */
  ghost predicate ObservedGrowth(size: Doc -> nat, reported: Doc -> nat) {
    forall d: Doc, ops: Doc {:trigger size(d + ops)} :: size(d + ops) <= size(d) + reported(ops - d)
  }

  /** An inbound update of a given length grows the encoded document by no more than twice that, and framing. */
  ghost predicate InboundGrowth(size: Doc -> nat, ops: Doc, length: nat) {
    forall d: Doc {:trigger size(d + ops)} :: size(d + ops) <= size(d) + 2 * length + SKIP_SLACK
  }

  /** Even an empty document encodes to something. */
  ghost predicate Framed(size: Doc -> nat) {
    forall d: Doc :: size(d) > 0
  }

  /** How an exact measurement goes: it works, the live document does not encode, or the scratch copy fails after it did. */
  datatype Measure = Works | LiveFails | ScratchFails

  /**
   * An update with its inbound length, whether it came from a peer and whether the schema accepts it; a
   * flush; a cold reload. Each says how the measurement goes, should there be one.
   */
  datatype Input =
    | Edit(ops: Doc, length: nat, peer: bool, accepted: bool, measure: Measure)
    | Flushed(measure: Measure)
    | Reloaded

  predicate TooLarge(size: Doc -> nat, limit: int, doc: Doc, ops: Doc) {
    limit > 0 && size(doc + ops) > limit
  }

  /** The cheap test: an estimate is there, and leaves room for twice the update and the framing. */
  predicate Skips(estimate: nat, length: nat, limit: int) {
    estimate > 0 && estimate + 2 * length + SKIP_SLACK <= limit
  }

  /** The document and the verdicts of a service that measures every single update, and passes what it cannot measure. */
  function Exact(size: Doc -> nat, limit: int, doc: Doc, script: seq<Input>): (Doc, seq<bool>) {
    if script == [] then (doc, [])
    else
      var before := Exact(size, limit, doc, script[..|script| - 1]);
      match script[|script| - 1]
      case Flushed(_) => before
      case Reloaded => before
      case Edit(ops, _, peer, accepted, measure) =>
        var over := measure.Works? && TooLarge(size, limit, before.0, ops);
        (if (over && !peer) || !accepted then before.0 else before.0 + ops, before.1 + [over])
  }

  /** The estimate after a check: measured where the check measures, as before otherwise. */
  function Known(size: Doc -> nat, limit: int, doc: Doc, estimate: nat, length: nat, measure: Measure): nat {
    if limit <= 0 || Skips(estimate, length, limit) || measure.LiveFails? then estimate else size(doc)
  }

  /** The one step that spoils a sound estimate: unknown before, not measured now, and told less than the truth by the observer. */
  predicate Spoils(size: Doc -> nat, reported: Doc -> nat, limit: int, doc: Doc, estimate: nat, input: Input) {
    && limit > 0 && estimate == 0
    && input.Edit? && input.measure.LiveFails? && input.accepted
    && !(input.ops <= doc) && 0 < reported(input.ops - doc) < size(doc + input.ops)
  }

  /** The first step that could change the document or the estimate gets the live document encoded. */
  predicate FirstMeasured(script: seq<Input>) {
    if script == [] then true
    else
      match script[0]
      case Edit(_, _, _, accepted, measure) => !measure.LiveFails? || (!accepted && FirstMeasured(script[1..]))
      case Flushed(measure) => !measure.LiveFails? || FirstMeasured(script[1..])
      case Reloaded => true
  }

  class Budget {
    const limit: int
    const size: Doc -> nat
    const reported: Doc -> nat
    var doc: Doc
    var docBytes: nat

    /** The estimate is unknown, or it is not below the truth. */
    ghost predicate Sound()
      reads this
    {
      limit > 0 && docBytes > 0 ==> size(doc) <= docBytes
    }

    /** A room opens a document without stored state, restores one, or finds one alive that it may fail to measure. */
    constructor (limit: int, size: Doc -> nat, reported: Doc -> nat, doc: Doc, measured: bool)
      ensures Sound() && this.limit == limit && this.size == size && this.reported == reported && this.doc == doc
      ensures docBytes == if measured then size(doc) else 0
    {
      this.limit, this.size, this.reported, this.doc := limit, size, reported, doc;
      docBytes := if measured then size(doc) else 0;
    }

    /**
     * The check. It accuses nobody wrongly; it lets pass what it skips or cannot measure, and skips only
     * rightly while the estimate is sound.
     */
    method WouldExceed(ops: Doc, length: nat, measure: Measure) returns (exceeds: bool)
      requires InboundGrowth(size, ops, length)
      modifies `docBytes
      ensures exceeds == (measure.Works? && !Skips(old(docBytes), length, limit) && TooLarge(size, limit, doc, ops))
      ensures old(Sound()) ==> Sound() && exceeds == (measure.Works? && TooLarge(size, limit, doc, ops))
      ensures docBytes == Known(size, limit, doc, old(docBytes), length, measure)
      ensures exceeds ==> limit > 0 && size(doc + ops) > limit
      ensures old(docBytes) > 0 && old(docBytes) + 2 * length + 1024 <= limit ==> docBytes == old(docBytes) && !exceeds
      ensures limit > 0 && (old(docBytes) == 0 || old(docBytes) + 2 * length + 1024 > limit) && measure == Works ==>
                docBytes == size(doc) && (exceeds <==> size(doc + ops) > limit)
    {
      if limit <= 0 {
        return false;
      }
      if Skips(docBytes, length, limit) {
        assert size(doc + ops) <= size(doc) + 2 * length + SKIP_SLACK;
        return false;
      }
      if measure.LiveFails? {
        return false;
      }
      docBytes := size(doc);
      if measure.ScratchFails? {
        return false;
      }
      return size(doc + ops) > limit;
    }

    /** The live apply and what the observer adds to the estimate. */
    method Apply(ops: Doc)
      requires ObservedGrowth(size, reported)
      modifies `doc, `docBytes
      ensures doc == old(doc) + ops
      ensures docBytes == if ops <= old(doc) then old(docBytes) else old(docBytes) + reported(ops - old(doc))
      ensures size(old(doc)) <= old(docBytes) ==> size(doc) <= docBytes
    {
      assert size(doc + ops) <= size(doc) + reported(ops - doc);
      if ops <= doc {
        assert doc + ops == doc;
        return;
      }
      docBytes := docBytes + reported(ops - doc);
      doc := doc + ops;
    }

    /**
     * One update, or a point at which the estimate is measured anew. A peer's update is applied whatever
     * its size. A sound estimate stays sound exactly unless the step spoils it.
     */
    method Take(input: Input) returns (over: bool)
      requires ObservedGrowth(size, reported)
      requires input.Edit? ==> InboundGrowth(size, input.ops, input.length)
      modifies `doc, `docBytes
      ensures old(Sound()) ==> (Sound() <==> !Spoils(size, reported, limit, old(doc), old(docBytes), input))
      ensures old(Sound()) && input.Edit? ==> over == (input.measure.Works? && TooLarge(size, limit, old(doc), input.ops))
      ensures input.Edit? ==>
                && over == (input.measure.Works? && !Skips(old(docBytes), input.length, limit)
                            && TooLarge(size, limit, old(doc), input.ops))
                && doc == if (over && !input.peer) || !input.accepted then old(doc) else old(doc) + input.ops
      ensures !input.Edit? ==> doc == old(doc) && !over
      ensures input.Edit? ==>
                var known := Known(size, limit, old(doc), old(docBytes), input.length, input.measure);
                docBytes == if doc == old(doc) then known else known + reported(input.ops - old(doc))
      ensures !input.Edit? ==> docBytes == if input.Reloaded? || !input.measure.LiveFails? then size(doc) else old(docBytes)
    {
      match input {
        case Edit(ops, length, peer, accepted, measure) =>
          over := WouldExceed(ops, length, measure);
          if (over && !peer) || !accepted {
            return;
          }
          Apply(ops);
        case Flushed(measure) =>
          if !measure.LiveFails? {
            docBytes := size(doc);
          }
          return false;
        case Reloaded =>
          docBytes := size(doc);
          return false;
      }
    }

    /**
     * Over any sequence of updates, flushes and reloads with any measurements failing, the verdicts and
     * the document are those of measuring every time, as long as the first measurement needed works.
     */
    method Run(script: seq<Input>) returns (verdicts: seq<bool>)
      requires ObservedGrowth(size, reported) && Framed(size)
      requires forall i | 0 <= i < |script| && script[i].Edit? :: InboundGrowth(size, script[i].ops, script[i].length)
      modifies `doc, `docBytes
      ensures old(Sound()) && (limit <= 0 || old(docBytes) > 0 || FirstMeasured(script)) ==>
                Sound() && (doc, verdicts) == Exact(size, limit, old(doc), script)
    {
      verdicts := [];
      ghost var good := Sound() && (limit <= 0 || docBytes > 0 || FirstMeasured(script));
      for i := 0 to |script|
        invariant good ==> Sound() && (doc, verdicts) == Exact(size, limit, old(doc), script[..i])
        invariant good ==> limit <= 0 || docBytes > 0 || FirstMeasured(script[i..])
      {
        assert script[..i + 1][..i] == script[..i];
        assert script[i..][1..] == script[i + 1..];
        var over := Take(script[i]);
        if script[i].Edit? {
          verdicts := verdicts + [over];
        }
      }
      assert script[..|script|] == script;
    }
  }

  /** Thirteen bytes of framing and two thousand for every operation. */
  function PlainSize(d: Doc): nat {
    13 + 2000 * |d|
  }

  function PlainReport(d: Doc): nat {
    20 + 2000 * |d|
  }

  lemma PlainSizeGrows(ops: Doc)
    requires |ops| == 1
    ensures ObservedGrowth(PlainSize, PlainReport) && InboundGrowth(PlainSize, ops, 2050)
  {
    forall d: Doc, u: Doc ensures PlainSize(d + u) <= PlainSize(d) + PlainReport(u - d) {
      assert d + u == d + (u - d);
    }
    forall d: Doc ensures PlainSize(d + ops) <= PlainSize(d) + 2 * 2050 + SKIP_SLACK {
      assert d + ops == d + (ops - d);
      assert |ops - d| <= 1;
    }
  }

  /**
   * The estimate of the source is not always at or above the truth. A document of 6013 bytes is found
   * alive and cannot be measured; the check on its next update cannot either. The estimate is then that
   * update's length, and a third check, with nothing failing any more, waves a document of 10013 bytes
   * through a limit of 8192.
   */
  method UnmeasuredEstimateLies() returns (budget: Budget, before: Doc, second: Doc, over: bool)
    ensures budget.limit == 8192 && before != {} && budget.doc == before + second
    ensures TooLarge(budget.size, budget.limit, before, second) && !over
    ensures !budget.Sound()
  {
    var live := {Op(1, Content), Op(2, Content), Op(3, Content)};
    var first := {Op(4, Content)};
    second := {Op(5, Content)};
    PlainSizeGrows(first);
    PlainSizeGrows(second);
    assert first - live == first && second - (live + first) == second;
    assert |live + first| == 4 && |live + first + second| == 5;
    budget := new Budget(8192, PlainSize, PlainReport, live, false);
    var passed := budget.Take(Edit(first, 2050, false, true, LiveFails));
    assert budget.docBytes == 2020;
    before := budget.doc;
    over := budget.Take(Edit(second, 2050, false, true, Works));
  }
}
