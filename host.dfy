/** What the integration uses of the Home Assistant host: its template engine
    and its service dispatcher. Both belong to the host; the integration only
    calls them. */
module Host {
  import opened Py

  /** A template object, built from its source text. */
  datatype Template = Template(text: string)

  /** The end of one `async_render` call: the value it produced (after the
      host's own conversion of the text to a native value) or the exception
      it raised. */
  datatype Render = Rendered(value: Value) | RenderRaised(exc: Exc)

  /** The host's template engine as it stands at the time of a call: the
      template and the variables passed to `async_render` decide the result. */
  type Renderer = (Template, Mapping) -> Render

  /** One call to `hass.services.async_call(domain, service, data)`. */
  datatype ServiceCall = ServiceCall(domain: string, service: string, data: Mapping)

  /** `hass.services`, reduced to the calls dispatched to it. */
  class ServiceRegistry {
    var calls: seq<ServiceCall>

    constructor ()
      ensures calls == []
    {
      calls := [];
    }

    method AsyncCall(domain: string, service: string, data: Mapping)
      modifies this
      ensures calls == old(calls) + [ServiceCall(domain, service, data)]
    {
      calls := calls + [ServiceCall(domain, service, data)];
    }
  }
}
