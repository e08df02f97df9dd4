/** The species facts record and how a record is shown on the page. */
module Species {
  import opened Outcome

  /** One entry of an `info` table: the three fields every entry carries. */
  datatype SpeciesRecord = SpeciesRecord(scientificName: string, malayName: string, funFact: string)

  /** A line the page shows: the prediction header, a written line, or the
      message written when the facts lookup fails (keyed by the missing label). */
  datatype Output = Header(prediction: string) | Write(text: string) | ApiError(missingKey: string)

  const ScientificNameLabel := "Scientific name: "
  const MalayNameLabel := "Malay name: "
  const FunFactLabel := "Fun fact: "

  /** The three lines written for a record, in display order. */
  function FieldLines(rec: SpeciesRecord): seq<Output>
  {
    [Write(ScientificNameLabel + rec.scientificName),
     Write(MalayNameLabel + rec.malayName),
     Write(FunFactLabel + rec.funFact)]
  }

  /** `table[name]`: the record, or KeyError when the name is not a key. */
  function Lookup(table: map<string, SpeciesRecord>, name: string): (r: Result<SpeciesRecord>)
    ensures r.Success? <==> name in table
    ensures r.Success? ==> r.value == table[name]
    ensures r.Failure? ==> r.error == KeyError
  {
    if name in table then Success(table[name]) else Failure(KeyError)
  }

}
