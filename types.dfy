/** types.ts: the data shapes shared by the client. */
module Types {
  /** `StockPoint`; the price is a JavaScript number, modelled as a real. */
  datatype StockPoint = StockPoint(date: string, price: real)

  /** `AIProcessingResult`: what the backend returns and what is saved to Drive. */
  datatype AIProcessingResult = AIProcessingResult(
    summary: string,
    doppelgangerPrompt: string,
    mathExpression: string,
    imageUrls: seq<string>,
    visualNarrative: string)
}
