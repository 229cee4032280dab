/**
 * The MEV-share middleware (src/middleware.rs): a primary relay fixed at
 * construction and a simulation-relay slot that starts empty and is
 * overwritten by `SetSimulationRelay`.
 */
module Middleware {
  import opened Wrappers

  /** A relay endpoint address. URL parsing is not part of this model. */
  type Url = string

  /**
   * A relay client, represented by the two arguments it was built from: its
   * address and the identity it signs requests with, if any.
   */
  datatype Relay<S> = Relay(url: Url, signer: Option<S>)

  /** The relay client's constructor; its transport and signing internals are not modelled. */
  function MakeRelay<S>(url: Url, signer: Option<S>): Relay<S> {
    Relay(url, signer)
  }

  /** `M` is the wrapped chain-access provider, `S` the signer type. */
  class MevShareMiddleware<M, S> {
    // Only the constructor writes these two.
    const inner: M
    const relay: Relay<S>
    var simulationRelay: Option<Relay<S>>

    /** The primary relay always gets the signer; no simulation relay is set. */
    constructor (inner: M, relayUrl: Url, relaySigner: S)
      ensures this.inner == inner
      ensures relay == MakeRelay(relayUrl, Some(relaySigner))
      ensures simulationRelay == None
    {
      this.inner := inner;
      relay := MakeRelay(relayUrl, Some(relaySigner));
      simulationRelay := None;
    }

    /** The relay client used for submission; reads only. */
    method GetRelay() returns (r: Relay<S>)
      ensures r == relay
    {
      r := relay;
    }

    /** The relay client used for simulation, if one was set; reads only. */
    method GetSimulationRelay() returns (r: Option<Relay<S>>)
      ensures r == simulationRelay
    {
      r := simulationRelay;
    }

    /**
     * Installs an unsigned relay at `relayUrl` as the simulation relay,
     * replacing any earlier one. Only the slot may be written.
     */
    method SetSimulationRelay(relayUrl: Url)
      modifies this`simulationRelay
      ensures simulationRelay == Some(MakeRelay(relayUrl, None))
    {
      simulationRelay := Some(MakeRelay(relayUrl, None));
    }
  }

  /**
   * Last write wins: after two settings the slot holds the relay built from
   * the second URL alone. The primary relay is a `const`, so it is what it was.
   */
  method SetSimulationRelayTwice<M, S>(m: MevShareMiddleware<M, S>, url1: Url, url2: Url)
    modifies m
    ensures m.simulationRelay == Some(MakeRelay(url2, None))
  {
    m.SetSimulationRelay(url1);
    m.SetSimulationRelay(url2);
  }
}
