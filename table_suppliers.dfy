/**
 * The two suppliers of a configuration table: one holding a table given to it,
 * one reading a YAML document from a URI each time it is asked.
 */
module TableSuppliers {
  import opened Wrappers
  import opened Filters
  import opened TableLoading

  /** MetricsAttributeTableSupplier: its one final field is the table it was given. */
  datatype MetricsAttributeTableSupplier = MetricsAttributeTableSupplier(table: Table)

  /** The constructor: a null table is rejected, any other is stored as it is. */
  function NewMetricsAttributeTableSupplier(table: Option<Table>): (r: Result<MetricsAttributeTableSupplier>)
    ensures r.Failure? <==> table.None?
    ensures r.Failure? ==> r.error == IllegalArgumentException("table cannot be null", None)
  {
    if table.None? then Failure(IllegalArgumentException("table cannot be null", None))
    else Success(MetricsAttributeTableSupplier(table.value))
  }

  /** `get()`: the stored table. */
  function SupplierGet(s: MetricsAttributeTableSupplier): (t: Table)
    ensures NewMetricsAttributeTableSupplier(Some(t)) == Success(s)
  {
    s.table
  }

  /** `get()` returns the very table given to the constructor, on every call. */
  lemma SupplierGetReturnsGivenTable(table: Table)
    ensures NewMetricsAttributeTableSupplier(Some(table)).Success?
    ensures SupplierGet(NewMetricsAttributeTableSupplier(Some(table)).value) == table
  {
  }

  /**
   * The resource location of a YAML document; `absolute` is whether it has a
   * scheme, which `toURL()` demands.
   */
  datatype Uri = Uri(text: string, absolute: bool)

  /** YamlMetricsAttributeTableSupplier: its one final field is the document's location; nothing is cached. */
  datatype YamlMetricsAttributeTableSupplier = YamlMetricsAttributeTableSupplier(yamlSource: Uri)

  /** The constructor: a null URI is rejected, any other is stored. */
  function NewYamlSupplier(yamlSource: Option<Uri>): (r: Result<YamlMetricsAttributeTableSupplier>)
    ensures r.Failure? <==> yamlSource.None?
    ensures r.Failure? ==> r.error == IllegalArgumentException("yamlSource cannot be null", None)
    ensures r.Success? ==> r.value.yamlSource == yamlSource.value
  {
    if yamlSource.None? then Failure(IllegalArgumentException("yamlSource cannot be null", None))
    else Success(YamlMetricsAttributeTableSupplier(yamlSource.value))
  }

  /**
   * `get()`: converts the stored URI to a URL, then reads and parses the
   * document there (`read` gives the outcome of doing so on this call) and
   * flattens it. A URI that is not absolute fails the conversion with an
   * IllegalArgumentException that is not caught; a read or parse failure, an
   * IOException, is rethrown as an IllegalArgumentException whose cause it
   * is. Since the outcome of the current read alone decides the result, a
   * changed document is seen by the next call.
   */
  method YamlSupplierGet(s: YamlMetricsAttributeTableSupplier, read: Uri -> ParseOutcome) returns (r: Result<Table>)
    ensures !s.yamlSource.absolute ==> r == Failure(IllegalArgumentException("URI is not absolute", None))
    ensures s.yamlSource.absolute ==> (r.Failure? <==> read(s.yamlSource).ParseFailed?)
    ensures s.yamlSource.absolute && r.Failure? ==>
              r.error == IllegalArgumentException("NewRelic metrics config file has wrong format",
                                                  Some(IOException(read(s.yamlSource).message)))
    ensures r.Success? ==> r.value == Flattened(read(s.yamlSource).document)
  {
    if !s.yamlSource.absolute {
      return Failure(IllegalArgumentException("URI is not absolute", None));
    }
    var parsed := read(s.yamlSource);
    if parsed.ParseFailed? {
      return Failure(IllegalArgumentException("NewRelic metrics config file has wrong format", Some(IOException(parsed.message))));
    }
    var table := Flatten(parsed.document);
    return Success(table);
  }
}
