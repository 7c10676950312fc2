/**
 * The Rust front end of the Relooper (src/relooper.rs): a builder bound to one
 * module that hands out sequential block ids, checks that every expression it
 * is given belongs to its module, bounds-checks every id it looks up, and is
 * consumed by `render`.
 *
 * The structuring algorithm itself lives in C++ behind `ffi::Relooper*`; here
 * that side is an opaque object (`RawRelooper`) that only records the calls it
 * receives. What the C++ code computes is not modelled.
 */
module RelooperBindings {
  import opened Prelude

  /** Opaque handles of the C++ side: a module, an expression node, a relooper block. */
  datatype RawModule = RawModule(handle: nat)
  datatype RawExpr = RawExpr(handle: nat)
  datatype RawBlock = RawBlock(handle: nat)

  /** A raw, possibly null, `BinaryenExpressionRef`. */
  datatype ExprPtr = NullExpr | RawPtr(target: RawExpr)

  /** `InnerModule`, shared through `Rc`: only its identity and raw handle matter here. */
  class InnerModule {
    const raw: RawModule

    constructor (raw: RawModule)
      ensures this.raw == raw
    {
      this.raw := raw;
    }
  }

  /** `Expr`: a raw expression node together with the module that owns it. */
  datatype Expr = Expr(moduleRef: InnerModule, raw: RawExpr)

  /** `RelooperBlockId`: an index into the Relooper's block table. */
  datatype BlockId = BlockId(index: nat)

  /** The panic of an out-of-range `Vec` index: the index and the length. */
  datatype Panic = IndexOutOfBounds(index: nat, len: nat)

  /** The outcome of a call that returns `()` or panics. */
  datatype Outcome = Pass | Fail(panic: Panic)

  /** `Option<Expr>::map_or(null, into_raw)`: an absent expression becomes a null pointer. */
  function IntoRawOrNull(e: Option<Expr>): (p: ExprPtr)
    ensures p.NullExpr? <==> e.None?
    ensures e.Some? ==> p.target == e.value.raw
  {
    match e
    case None => NullExpr
    case Some(x) => RawPtr(x.raw)
  }

  /** One foreign call into the C++ relooper, with the handle it returned where it returns one. */
  datatype FfiCall =
    | BlockAdded(body: RawExpr, block: RawBlock)
    | SwitchBlockAdded(body: RawExpr, selector: RawExpr, block: RawBlock)
    | BranchAdded(from: RawBlock, to: RawBlock, condition: ExprPtr, transfer: ExprPtr)
    | SwitchBranchAdded(from: RawBlock, to: RawBlock, indices: seq<u32>, numIndices: u32, transfer: ExprPtr)
    | RenderedAndDisposed(entry: RawBlock, labelHelper: u32, rawModule: RawModule, result: RawExpr)
  {
    predicate CreatesBlock() {
      BlockAdded? || SwitchBlockAdded?
    }

    /** The blocks the call refers to were all created before it. */
    ghost predicate UsesKnownBlocks(known: seq<RawBlock>) {
      match this
      case BranchAdded(from, to, _, _) => from in known && to in known
      case SwitchBranchAdded(from, to, _, _, _) => from in known && to in known
      case RenderedAndDisposed(entry, _, _, _) => entry in known
      case _ => true
    }
  }

  /** The blocks created by a call sequence, in creation order. */
  ghost function CreatedBlocks(log: seq<FfiCall>): seq<RawBlock> {
    if log == [] then []
    else
      var last := log[|log| - 1];
      CreatedBlocks(log[..|log| - 1]) + (if last.CreatesBlock() then [last.block] else [])
  }

  /** The C++ relooper has been rendered and freed. */
  ghost predicate Disposed(log: seq<FfiCall>) {
    |log| > 0 && log[|log| - 1].RenderedAndDisposed?
  }

  /** Every call refers only to blocks created before it, and rendering is the last call. */
  ghost predicate WellFormedLog(log: seq<FfiCall>) {
    forall k :: 0 <= k < |log| ==>
      log[k].UsesKnownBlocks(CreatedBlocks(log[..k])) && (log[k].RenderedAndDisposed? ==> k == |log| - 1)
  }

  /** Appending one call to a well-formed, live log. */
  lemma {:induction false} AppendCall(log: seq<FfiCall>, c: FfiCall)
    requires WellFormedLog(log) && !Disposed(log)
    requires c.UsesKnownBlocks(CreatedBlocks(log))
    ensures WellFormedLog(log + [c])
    ensures CreatedBlocks(log + [c]) == CreatedBlocks(log) + (if c.CreatesBlock() then [c.block] else [])
    ensures Disposed(log + [c]) <==> c.RenderedAndDisposed?
  {
    var log' := log + [c];
    assert log'[..|log|] == log;
    forall k | 0 <= k < |log'|
      ensures log'[k].UsesKnownBlocks(CreatedBlocks(log'[..k]))
      ensures log'[k].RenderedAndDisposed? ==> k == |log'| - 1
    {
      if k < |log| {
        assert log'[..k] == log[..k];
        assert log'[k] == log[k];
      }
    }
  }

  /** The C++ `Relooper` object behind `ffi::RelooperRef`, seen only through the calls it receives. */
  class RawRelooper {
    var log: seq<FfiCall>
    var disposed: bool

    /** `ffi::RelooperCreate`. */
    constructor Create()
      ensures log == [] && !disposed
    {
      log := [];
      disposed := false;
    }

    /** `ffi::RelooperAddBlock`. */
    method AddBlock(body: RawExpr) returns (b: RawBlock)
      requires !disposed
      modifies this
      ensures !disposed && log == old(log) + [BlockAdded(body, b)]
    {
      b := RawBlock(|log|);
      log := log + [BlockAdded(body, b)];
    }

    /** `ffi::RelooperAddBlockWithSwitch`. */
    method AddBlockWithSwitch(body: RawExpr, selector: RawExpr) returns (b: RawBlock)
      requires !disposed
      modifies this
      ensures !disposed && log == old(log) + [SwitchBlockAdded(body, selector, b)]
    {
      b := RawBlock(|log|);
      log := log + [SwitchBlockAdded(body, selector, b)];
    }

    /** `ffi::RelooperAddBranch`. */
    method AddBranch(from: RawBlock, to: RawBlock, condition: ExprPtr, transfer: ExprPtr)
      requires !disposed
      modifies this
      ensures !disposed && log == old(log) + [BranchAdded(from, to, condition, transfer)]
    {
      log := log + [BranchAdded(from, to, condition, transfer)];
    }

    /** `ffi::RelooperAddBranchForSwitch`: the indices go over as a pointer and a `u32` count. */
    method AddBranchForSwitch(from: RawBlock, to: RawBlock, indices: seq<u32>, numIndices: u32, transfer: ExprPtr)
      requires !disposed
      modifies this
      ensures !disposed && log == old(log) + [SwitchBranchAdded(from, to, indices, numIndices, transfer)]
    {
      log := log + [SwitchBranchAdded(from, to, indices, numIndices, transfer)];
    }

    /** `ffi::RelooperRenderAndDispose`: structures the graph and frees the relooper. */
    method RenderAndDispose(entry: RawBlock, labelHelper: u32, rawModule: RawModule) returns (e: RawExpr)
      requires !disposed
      modifies this
      ensures disposed && log == old(log) + [RenderedAndDisposed(entry, labelHelper, rawModule, e)]
    {
      e := RawExpr(|log|);
      log := log + [RenderedAndDisposed(entry, labelHelper, rawModule, e)];
      disposed := true;
    }
  }

  /** `usize as u32`: the truncating cast of a slice length. */
  function LengthAsU32(n: nat): (r: u32)
    ensures n < 0x1_0000_0000 ==> r as int == n
    ensures r as int == n % 0x1_0000_0000
  {
    (n % 0x1_0000_0000) as u32
  }

  /** `Relooper`. */
  class Relooper {
    const raw: RawRelooper
    var blocks: seq<RawBlock>
    const moduleRef: InnerModule
    /** `render` has taken the Relooper by value: nothing may use it afterwards. */
    ghost var consumed: bool

    /**
     * Id i names the block made by the i-th block-creating foreign call; every
     * branch and the render entry were created before use; the C++ object is
     * freed only by rendering.
     */
    ghost predicate Valid()
      reads this, raw
    {
      && blocks == CreatedBlocks(raw.log)
      && WellFormedLog(raw.log)
      && (raw.disposed <==> Disposed(raw.log))
      && (raw.disposed ==> consumed)
    }

    /** `Relooper::new`: an empty table, bound to the module it was given. */
    constructor (moduleRef: InnerModule)
      ensures Valid() && !consumed && fresh(raw)
      ensures this.moduleRef == moduleRef && blocks == [] && raw.log == []
    {
      raw := new RawRelooper.Create();
      blocks := [];
      this.moduleRef := moduleRef;
      consumed := false;
    }

    /** `is_expr_from_same_module`: `Rc::ptr_eq`, identity of the module object. */
    predicate IsExprFromSameModule(e: Expr): (same: bool)
      ensures same <==> e.moduleRef == moduleRef
      ensures same ==> e.moduleRef.raw == moduleRef.raw
    {
      e.moduleRef == moduleRef
    }

    /** `register_block`: pushes the raw block and returns its index. */
    method RegisterBlock(rawBlock: RawBlock) returns (id: BlockId)
      modifies this`blocks
      ensures blocks == old(blocks) + [rawBlock] && id == BlockId(|old(blocks)|)
    {
      id := BlockId(|blocks|);
      blocks := blocks + [rawBlock];
    }

    /** `add_block`: the body must come from the Relooper's module. */
    method AddBlock(code: Expr) returns (id: BlockId)
      requires Valid() && !consumed
      requires IsExprFromSameModule(code)
      modifies this, raw
      ensures Valid() && !consumed
      ensures id == BlockId(|old(blocks)|)
      ensures |blocks| == |old(blocks)| + 1 && blocks[..id.index] == old(blocks)
      ensures raw.log == old(raw.log) + [BlockAdded(code.raw, blocks[id.index])]
    {
      var rawBlock := raw.AddBlock(code.raw);
      AppendCall(old(raw.log), BlockAdded(code.raw, rawBlock));
      id := RegisterBlock(rawBlock);
    }

    /** `add_block_with_switch`: the body and the selector must come from the Relooper's module. */
    method AddBlockWithSwitch(code: Expr, condition: Expr) returns (id: BlockId)
      requires Valid() && !consumed
      requires IsExprFromSameModule(code) && IsExprFromSameModule(condition)
      modifies this, raw
      ensures Valid() && !consumed
      ensures id == BlockId(|old(blocks)|)
      ensures |blocks| == |old(blocks)| + 1 && blocks[..id.index] == old(blocks)
      ensures raw.log == old(raw.log) + [SwitchBlockAdded(code.raw, condition.raw, blocks[id.index])]
    {
      var rawBlock := raw.AddBlockWithSwitch(code.raw, condition.raw);
      AppendCall(old(raw.log), SwitchBlockAdded(code.raw, condition.raw, rawBlock));
      id := RegisterBlock(rawBlock);
    }

    /**
     * `render`: consumes the Relooper; the entry id is bounds-checked before
     * the foreign call, and the result belongs to the Relooper's module.
     */
    method Render(entryId: BlockId, labelHelper: u32) returns (r: Result<Expr, Panic>)
      requires Valid() && !consumed
      modifies this, raw
      ensures Valid() && consumed && blocks == old(blocks)
      ensures r.Ok? <==> entryId.index < |blocks|
      ensures r.Err? ==> r.error == IndexOutOfBounds(entryId.index, |blocks|)
                         && raw.log == old(raw.log) && !raw.disposed
      ensures r.Ok? ==> r.value.moduleRef == moduleRef && raw.disposed
                        && raw.log == old(raw.log) + [RenderedAndDisposed(blocks[entryId.index], labelHelper, moduleRef.raw, r.value.raw)]
    {
      consumed := true;
      if entryId.index >= |blocks| {
        return Err(IndexOutOfBounds(entryId.index, |blocks|));
      }
      var entry := blocks[entryId.index];
      var rawExpr := raw.RenderAndDispose(entry, labelHelper, moduleRef.raw);
      AppendCall(old(raw.log), RenderedAndDisposed(entry, labelHelper, moduleRef.raw, rawExpr));
      r := Ok(Expr(moduleRef, rawExpr));
    }

    /**
     * `add_branch`: a present condition or transfer code must come from the
     * Relooper's module; an absent one goes over as a null pointer. Both ids
     * are bounds-checked, `from` first. Only the C++ side changes.
     */
    method AddBranch(from: BlockId, to: BlockId, condition: Option<Expr>, code: Option<Expr>) returns (outcome: Outcome)
      requires Valid() && !consumed
      requires condition.Some? ==> IsExprFromSameModule(condition.value)
      requires code.Some? ==> IsExprFromSameModule(code.value)
      modifies raw
      ensures Valid() && !consumed && blocks == old(blocks)
      ensures outcome.Pass? <==> from.index < |blocks| && to.index < |blocks|
      ensures from.index >= |blocks| ==> outcome == Fail(IndexOutOfBounds(from.index, |blocks|))
      ensures from.index < |blocks| <= to.index ==> outcome == Fail(IndexOutOfBounds(to.index, |blocks|))
      ensures outcome.Fail? ==> raw.log == old(raw.log)
      ensures outcome.Pass? ==>
                raw.log == old(raw.log) + [BranchAdded(blocks[from.index], blocks[to.index],
                                                       IntoRawOrNull(condition), IntoRawOrNull(code))]
    {
      if from.index >= |blocks| {
        return Fail(IndexOutOfBounds(from.index, |blocks|));
      }
      var fromBlock := blocks[from.index];
      if to.index >= |blocks| {
        return Fail(IndexOutOfBounds(to.index, |blocks|));
      }
      var toBlock := blocks[to.index];
      var conditionPtr := IntoRawOrNull(condition);
      var codePtr := IntoRawOrNull(code);
      raw.AddBranch(fromBlock, toBlock, conditionPtr, codePtr);
      AppendCall(old(raw.log), BranchAdded(fromBlock, toBlock, conditionPtr, codePtr));
      outcome := Pass;
    }

    /**
     * `add_branch_for_switch`: as `add_branch`, with a list of case indices in
     * place of a condition; the list goes over with its length cast to `u32`.
     */
    method AddBranchForSwitch(from: BlockId, to: BlockId, indices: seq<u32>, code: Option<Expr>) returns (outcome: Outcome)
      requires Valid() && !consumed
      requires code.Some? ==> IsExprFromSameModule(code.value)
      modifies raw
      ensures Valid() && !consumed && blocks == old(blocks)
      ensures outcome.Pass? <==> from.index < |blocks| && to.index < |blocks|
      ensures from.index >= |blocks| ==> outcome == Fail(IndexOutOfBounds(from.index, |blocks|))
      ensures from.index < |blocks| <= to.index ==> outcome == Fail(IndexOutOfBounds(to.index, |blocks|))
      ensures outcome.Fail? ==> raw.log == old(raw.log)
      ensures outcome.Pass? ==>
                raw.log == old(raw.log) + [SwitchBranchAdded(blocks[from.index], blocks[to.index], indices,
                                                             LengthAsU32(|indices|), IntoRawOrNull(code))]
    {
      if from.index >= |blocks| {
        return Fail(IndexOutOfBounds(from.index, |blocks|));
      }
      var fromBlock := blocks[from.index];
      if to.index >= |blocks| {
        return Fail(IndexOutOfBounds(to.index, |blocks|));
      }
      var toBlock := blocks[to.index];
      var codePtr := IntoRawOrNull(code);
      raw.AddBranchForSwitch(fromBlock, toBlock, indices, LengthAsU32(|indices|), codePtr);
      AppendCall(old(raw.log), SwitchBranchAdded(fromBlock, toBlock, indices, LengthAsU32(|indices|), codePtr));
      outcome := Pass;
    }
  }

  /** Two distinct module objects are different modules even when their contents agree. */
  lemma SameModuleIsIdentity(r: Relooper, other: InnerModule, e: RawExpr)
    requires other != r.moduleRef && other.raw == r.moduleRef.raw
    ensures !r.IsExprFromSameModule(Expr(other, e))
    ensures r.IsExprFromSameModule(Expr(r.moduleRef, e))
  {
  }
}
