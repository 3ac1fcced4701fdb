/** The plugin's message prefix (src/utils/logger.ts). Thrown errors,
    warnings and log lines all carry it. */
module Logger {

  const ERROR_PREFIX: string := "[axios-mock-plugin]"

  /** The text of a message as `createError` throws it and `createWarning` prints it. */
  function WithPrefix(message: string): (r: string)
    ensures |r| == |ERROR_PREFIX| + 1 + |message|
    ensures r[..|ERROR_PREFIX| + 1] == ERROR_PREFIX + " " && r[|ERROR_PREFIX| + 1..] == message
  {
    ERROR_PREFIX + " " + message
  }

  /** Prefixing is injective: distinct messages stay distinct. */
  lemma WithPrefixInjective(m1: string, m2: string)
    ensures WithPrefix(m1) == WithPrefix(m2) ==> m1 == m2
  {
    if WithPrefix(m1) == WithPrefix(m2) {
      assert m1 == WithPrefix(m1)[|ERROR_PREFIX| + 1..];
    }
  }
}
