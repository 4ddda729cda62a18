/** Colouring of the inventory forecast column (`color_prediccion`): the forecast
    text is checked for "URGENTE", then "Pedir", then "OK"; the first hit picks the
    cell's background and text colour. */
module Inventory {
  import opened Text

  datatype CellStyle = CellStyle(background: string, color: string)

  const Urgent := CellStyle("#FF4B4B", "white")
  const Reorder := CellStyle("#FFB84B", "black")
  const Healthy := CellStyle("#4BBF73", "white")
  const Plain := CellStyle("transparent", "white")

  /** The style for a forecast text, by priority. */
  function PredictionStyle(val: string): (s: CellStyle)
    ensures s == Urgent <==> Contains(val, "URGENTE")
    ensures s == Reorder <==> !Contains(val, "URGENTE") && Contains(val, "Pedir")
    ensures s == Healthy <==> !Contains(val, "URGENTE") && !Contains(val, "Pedir") && Contains(val, "OK")
    ensures s == Plain <==> !Contains(val, "URGENTE") && !Contains(val, "Pedir") && !Contains(val, "OK")
  {
    if Contains(val, "URGENTE") then Urgent
    else if Contains(val, "Pedir") then Reorder
    else if Contains(val, "OK") then Healthy
    else Plain
  }

  /** The CSS the cell receives. */
  function StyleCss(s: CellStyle): string
  {
    "background-color: " + s.background + "; color: " + s.color
  }

  /** Adding text to a forecast can only raise its priority: an urgent text stays
      urgent and a reorder text becomes reorder or urgent. */
  lemma StyleOnlyEscalates(val: string, more: string)
    ensures PredictionStyle(val) == Urgent ==> PredictionStyle(val + more) == Urgent
    ensures PredictionStyle(val) == Reorder ==> PredictionStyle(val + more) in {Reorder, Urgent}
  {
    if Contains(val, "URGENTE") {
      ContainsInConcat(val, more, "URGENTE");
    } else if Contains(val, "Pedir") {
      ContainsInConcat(val, more, "Pedir");
    }
  }

  /** The forecasts of the initial stock: two reorder items and one urgent item. */
  lemma InitialForecastStyles()
    ensures PredictionStyle("Pedir 5 cajas") == Reorder
    ensures PredictionStyle("Pedir 200ml") == Reorder
    ensures PredictionStyle("¡PEDIDO URGENTE!") == Urgent
  {
    ReorderForecast("Pedir 5 cajas");
    ReorderForecast("Pedir 200ml");
    UrgentForecast("¡PEDIDO URGENTE!");
  }

  /** A forecast that starts with "Pedir" and has no capital U is a reorder. */
  lemma ReorderForecast(val: string)
    requires IsPrefix("Pedir", val) && 'U' !in val
    ensures PredictionStyle(val) == Reorder
  {
    ContainsAt(val, "Pedir", 0);
    CharAbsent(val, "URGENTE", 0);
  }

  /** "¡PEDIDO URGENTE!" is urgent; it is not a reorder match either, since the test
      is case-sensitive. */
  lemma UrgentForecast(val: string)
    requires val == "¡PEDIDO URGENTE!"
    ensures PredictionStyle(val) == Urgent && !Contains(val, "Pedir")
  {
    ContainsAt(val, "URGENTE", 8);
    CharAbsent(val, "Pedir", 1);
  }
}
