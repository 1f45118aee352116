/**
 * The loan form's submit handler: validate the fields, price the loan, and put
 * the new simulation at the front of the stored history.
 */
module Simulator {
  import opened Wrappers
  import Loan
  import Guards
  import History

  /** What the handler ends with: the "complete the fields" message, a caught error, or a saved record. */
  datatype EnvioResultado =
    | CamposIncompletos
    | ErrorCalculo(error: Loan.PrestamoError)
    | Guardada(simulacion: History.Simulacion)

  /**
   * The submit handler. `id` and `fecha` are the clock readings the handler takes;
   * rendering the result and clearing the form are not modelled.
   */
  method Enviar(store: History.HistoryStore, campoNombre: string, monto: Option<real>, cuotas: Option<real>,
                id: int, fecha: string) returns (o: EnvioResultado)
    modifies store
    ensures !o.ErrorCalculo?
    ensures Guards.ValidarEnvio(campoNombre, monto, cuotas).None? ==>
      o == CamposIncompletos && store.stored == old(store.stored)
    ensures Guards.ValidarEnvio(campoNombre, monto, cuotas).Some? ==>
      var e := Guards.ValidarEnvio(campoNombre, monto, cuotas).value;
      var p := Loan.CalcularPrestamo(e.monto, e.cuotas).value;
      && o == Guardada(History.Simulacion(id, fecha, e.nombre, e.monto, e.cuotas, p.montoFinal, p.valorCuota, p.tasa))
      && store.stored == Some([o.simulacion] + old(store.Contents()))
  {
    var envio := Guards.ValidarEnvio(campoNombre, monto, cuotas);
    if envio.None? {
      return CamposIncompletos;
    }
    var e := envio.value;
    Guards.ValidatedSubmissionIsPriced(campoNombre, monto, cuotas);
    var resultado := Loan.CalcularPrestamo(e.monto, e.cuotas);
    match resultado
    case Failure(err) =>
      o := ErrorCalculo(err);
    case Success(p) =>
      var simulacion := History.Simulacion(id, fecha, e.nombre, e.monto, e.cuotas, p.montoFinal, p.valorCuota, p.tasa);
      store.Add(simulacion);
      o := Guardada(simulacion);
  }
}
