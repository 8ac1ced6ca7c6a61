/** The functions the engine calls but does not define: xxhash, the math package and the
    shortest-form float conversions. Every model function that needs one takes an Env. */
module Runtime {
  import opened Base

  datatype Env = Env(
    sum64: Item -> U64,
    ln: real -> real,
    exp: real -> real,
    ln2: real,
    isFloat: real -> bool,
    formatFloat: real -> string,
    parseFloat: string -> Option<real>
  ) {
    /** What is assumed of them. isFloat picks out the finitely many reals a float64 can hold. */
    ghost predicate Sound() {
      && 0.0 < ln2 < 1.0
      && (forall x: real :: 0.0 < x < 1.0 ==> ln(x) < 0.0)
      && exp(0.0) == 1.0
      && (forall x: real :: exp(x) > 0.0)
      && (forall x: real, y: real :: x <= y ==> exp(x) <= exp(y))
      && isFloat(0.9) && isFloat(2.0)
      && (forall x: real :: isFloat(x) ==> parseFloat(formatFloat(x)) == Some(x))
    }
  }

  /** A small environment that meets the assumptions: every stage gets the same number of bits per
      item, and only the item [1] hashes to something other than 0. */
  function SampleEnv(bitsPerItem: nat): Env {
    Env(
      item => if item == [1] then 1 else 0,
      x => -(bitsPerItem as real) / 4.0,
      x => 1.0,
      0.5,
      x => x == 0.9 || x == 2.0 || x == 0.5,
      x => if x == 0.9 then "0.9" else if x == 0.5 then "0.5" else "2",
      s => if s == "0.9" then Some(0.9) else if s == "0.5" then Some(0.5) else if s == "2" then Some(2.0) else None)
  }

  lemma SampleIsSound(bitsPerItem: nat)
    requires bitsPerItem >= 1
    ensures SampleEnv(bitsPerItem).Sound()
  {
  }

  /** The assumptions do not contradict each other. */
  lemma SoundIsSatisfiable()
    ensures exists env: Env :: env.Sound()
  {
    SampleIsSound(1);
  }
}
