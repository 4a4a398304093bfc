/** The first argument the adapter passes to the engine's callbacks:
    `null`, `this.errors.internal` or `this.errors.lost` (not found). */
module Errors {

  datatype Signal = Ok | Internal | NotFound
}
