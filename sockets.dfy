/**
  The part of a WebSocket the system looks at: its `readyState`, and what
  `close()` does to it (a socket that is connecting or open starts closing;
  closing an already closing or closed socket changes nothing).
*/
module Sockets {

  datatype ReadyState = Connecting | Open | Closing | Closed

  function AfterClose(s: ReadyState): (r: ReadyState)
    ensures r != Open && r != Connecting
    ensures s == Closed ==> r == Closed
  {
    if s == Closed then Closed else Closing
  }
}
