/**
 * Barrelfish error values (`errval_t`).
 *
 * An error value is a stack of error codes: `err_push` puts a new code on top
 * of an existing error, and the empty stack is `SYS_ERR_OK`. Only the codes
 * the modelled files name are spelled out; every other code, produced by code
 * outside this model, is `Foreign`.
 */
module Errors {
  datatype ErrCode =
    | LibErrNotImplemented   // LIB_ERR_NOT_IMPLEMENTED
    | MmErrSlotAllocInit     // MM_ERR_SLOT_ALLOC_INIT
    | LibErrRamAllocSet      // LIB_ERR_RAM_ALLOC_SET
    | Foreign(id: nat)       // any code raised by a collaborator outside the model

  /** `stack[0]` is the most recently pushed code. */
  datatype ErrVal = ErrVal(stack: seq<ErrCode>)

  const SysErrOk: ErrVal := ErrVal([])

  /** `err_is_fail`. */
  predicate IsFail(err: ErrVal) {
    err.stack != []
  }

  /** `err_is_ok`. */
  predicate IsOk(err: ErrVal) {
    !IsFail(err)
  }

  /** A fresh error carrying the single code `code`. */
  function Raise(code: ErrCode): (err: ErrVal)
    ensures IsFail(err) && err.stack[0] == code
  {
    ErrVal([code])
  }

  /** `err_push(err, code)`: the result fails, shows `code` on top and keeps `err` beneath it. */
  function Push(err: ErrVal, code: ErrCode): (r: ErrVal)
    ensures IsFail(r) && r.stack[0] == code && r.stack[1..] == err.stack
  {
    ErrVal([code] + err.stack)
  }

  /** The error every stub of the memory manager returns. */
  const NotImplemented: ErrVal := Raise(LibErrNotImplemented)
}
