/** Crate-level types shared by the structures, the reader and the writer
    (src/lib.rs), with the standard Option/Result shapes the Rust code uses. */
module Sitemap {

  datatype Option<+T> = None | Some(value: T)

  datatype Result<+T, +E> = Ok(value: T) | Err(error: E)

  /** What the low-level XML event writer reports when it cannot write an event. */
  datatype SinkError = SinkError(reason: string)

  /** Sitemap errors: the sink failed, or an entry was rejected. */
  datatype Error =
    | XmlWriteError(cause: SinkError)
    | Invalid(reason: string)
}
