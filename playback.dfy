// The playback vocabulary the HUD containers share: the status of the
// simulation and the commands a playback controller accepts.

module Playback {

  datatype Status = Idle | Playing | Paused | Stopped

  datatype Command = Resume | Pause | Stop | Update(tickRate: real, speed: real)
}
