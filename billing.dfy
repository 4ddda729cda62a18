/** The invoicing-sync counters of the internal-management page
    (`render_gestion_interna`): the amount already synced and the amount still pending. */
module Billing {

  /** The pending amount after syncing `monto`: lowered by `monto`, clamped at zero. */
  function PendingAfterSync(pendiente: real, monto: real): (r: real)
    ensures r >= 0.0 && r >= pendiente - monto
    ensures r == 0.0 || r == pendiente - monto
  {
    if pendiente - monto < 0.0 then 0.0 else pendiente - monto
  }

  /** Two syncs in a row leave the same pending amount as one sync of their sum. */
  lemma SyncsCompose(pendiente: real, a: real, b: real)
    requires b >= 0.0
    ensures PendingAfterSync(PendingAfterSync(pendiente, a), b) == PendingAfterSync(pendiente, a + b)
  {
  }

  /** While the pending amount covers the payment, a sync moves money from pending
      to synced and the sum of both is unchanged; otherwise pending drops to zero. */
  lemma SyncMovesAmount(sincronizado: real, pendiente: real, monto: real)
    ensures monto <= pendiente ==>
      (sincronizado + monto) + PendingAfterSync(pendiente, monto) == sincronizado + pendiente
    ensures monto > pendiente ==> PendingAfterSync(pendiente, monto) == 0.0
  {
  }

  /** The two counters, updated in place when an invoice is sent. */
  class AspelKpis {
    var sincronizado: real
    var pendiente: real

    ghost predicate Valid()
      reads this
    {
      pendiente >= 0.0
    }

    /** The session's starting figures. */
    constructor ()
      ensures Valid() && sincronizado == 12500.50 && pendiente == 4500.00
    {
      sincronizado := 12500.50;
      pendiente := 4500.00;
    }

    /** Record an invoice of `monto` as synced. */
    method Sync(monto: real)
      modifies this
      ensures Valid()
      ensures sincronizado == old(sincronizado) + monto
      ensures pendiente == PendingAfterSync(old(pendiente), monto)
    {
      sincronizado := sincronizado + monto;
      if pendiente - monto < 0.0 {
        pendiente := 0.0;
      } else {
        pendiente := pendiente - monto;
      }
    }
  }
}
