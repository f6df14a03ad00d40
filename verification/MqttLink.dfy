/** The connection flags of src/MqttClient/mqtt_client.cpp, and what each whole call makes of them. */
module MqttLinks {
  // How a call of the MQTT library goes.
  datatype Answer = Succeeds | Fails | Throws

  // MqttClient::connected_, PahoMqttBackend::connected_, and whether PahoMqttBackend::client_ is set.
  datatype Link = Link(client: bool, backend: bool, handle: bool)

  // Both flags say the same, and a connected backend has its library object.
  predicate FlagsAgree(l: Link) {
    l.client == l.backend && (l.backend ==> l.handle)
  }

  // How a connect goes: creating the library object, and connecting it.
  datatype Dial = Dial(create: Answer, call: Answer)

  predicate DialUp(dial: Dial) {
    !dial.create.Throws? && dial.call.Succeeds?
  }

  // Effects of the whole calls on the connection flags.
  function AfterBackendConnect(l: Link, dial: Dial): Link {
    if l.backend then l
    else if dial.create.Throws? then l.(backend := false)
    else l.(handle := true, backend := dial.call.Succeeds?)
  }

  predicate BackendDisconnectResult(l: Link, call: Answer) {
    !l.handle || !call.Throws?
  }

  function AfterConnect(l: Link, dial: Dial): Link {
    if l.client then l
    else AfterBackendConnect(l, dial).(client := AfterBackendConnect(l, dial).backend)
  }

  function AfterDisconnect(l: Link): Link {
    l.(client := false, backend := false)
  }

  function AfterReconnect(l: Link, call: Answer, dial: Dial): Link {
    if BackendDisconnectResult(l, call) then AfterConnect(AfterDisconnect(l), dial) else AfterDisconnect(l)
  }
}
