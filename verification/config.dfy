/**
 The configuration surface that resource lookups read from.

 The program keeps one global viper instance; here it is an explicit value.
 A key has an integer view (what GetInt answers) and a string view (what
 GetString answers); a key absent from a view reads as that view's zero
 value, 0 or "".
 */
module Config {

  datatype Store = Store(ints: map<string, int>, strings: map<string, string>)

  function GetInt(store: Store, key: string): int
  {
    if key in store.ints then store.ints[key] else 0
  }

  function GetString(store: Store, key: string): string
  {
    if key in store.strings then store.strings[key] else ""
  }

  /** The four per-analysis resource settings. */
  datatype Field = Cpus | Memory | Time | Container

  /** Position of a field in the checking order. */
  function Rank(f: Field): nat
  {
    match f
    case Cpus => 0
    case Memory => 1
    case Time => 2
    case Container => 3
  }

  function FieldName(f: Field): string
  {
    match f
    case Cpus => "cpus"
    case Memory => "memory"
    case Time => "time"
    case Container => "container"
  }

  /** The configuration key `resources.<analysisName>.<field>`. */
  function Key(analysisName: string, f: Field): (k: string)
    ensures |k| == |analysisName| + |FieldName(f)| + 11
    ensures k[..10] == "resources." && k[10..10 + |analysisName|] == analysisName
    ensures k[10 + |analysisName|] == '.' && k[11 + |analysisName|..] == FieldName(f)
  {
    "resources." + analysisName + "." + FieldName(f)
  }

  /** Distinct (analysis, field) pairs never share a key: each field name
      ends in its own letter, and the analysis name is what lies between
      the fixed prefix and the field. */
  lemma KeyInjective(n1: string, f1: Field, n2: string, f2: Field)
    requires Key(n1, f1) == Key(n2, f2)
    ensures n1 == n2 && f1 == f2
  {
  }
}
