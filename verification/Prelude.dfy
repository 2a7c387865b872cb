/** Datatypes shared by the modules. */
module Prelude {
  const USIZE_MAX: nat := 0xFFFF_FFFF_FFFF_FFFF

  /** ErrorKind::WriteZero, as the code of a Fail. */
  const WRITE_ZERO: int := -1

  function Min(a: nat, b: nat): nat { if a < b then a else b }

  newtype byte = x: int | 0 <= x < 256

  datatype Option<T> = None | Some(value: T)

  datatype Poll<T> = Pending | Ready(value: T)

  /** io::Result, with the one kind of error that callers retry on apart. */
  datatype Result<T> = Ok(value: T) | Interrupted | Fail(code: int)

  function With<T>(m: map<nat, T>, k: nat, v: T): map<nat, T> { m[k := v] }

  function Without<T>(m: map<nat, T>, k: nat): map<nat, T> { map j | j in m && j != k :: m[j] }

  lemma WithThenWithout<T>(m: map<nat, T>, k: nat, v: T)
    requires k !in m
    ensures Without(With(m, k, v), k) == m
  {
  }
}
