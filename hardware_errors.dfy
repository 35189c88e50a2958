/** The failures the extractor reports: both are raised as Python's
    `ValueError`, the only exception module-level `normalize` catches. */
module HardwareErrors {
  datatype ValueError =
    | MissingHardwareWrapper  // the input has no mapping under `hardware`
    | NotAnInteger            // `int()` refused a CPU core or thread count
}
