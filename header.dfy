/** src/components/header.tsx: the two buttons of the header and the connection mode they
    drive. The backend commands they invoke are outside the model: whether each succeeds is
    a parameter, and each handler returns the commands it invoked, in order. */
module Header {

  /** The mode in the store's `connected` field: "none", "modbus", "file" or "paused", or the
      boolean `false` that `clearData` writes over it. */
  datatype Mode = NoneMode | Modbus | File | Paused | ClearedFalse

  const PauseColumnData := "pause_column_data"
  const SendColumnData := "send_column_data"
  const DisconnectModbus := "disconnect_modbus"
  const ConnectModbus := "connect_modbus"

  /** The mode after `handleFile`. */
  function AfterFile(mode: Mode, percentageComplete: real, pauseOk: bool, sendOk: bool): Mode
  {
    if percentageComplete == 100.0 then mode
    else if mode == File then (if pauseOk then Paused else NoneMode)
    else if sendOk then File
    else NoneMode
  }

  /** The mode after `handleConnection`; a successful disconnect ends with `clearData`. */
  function AfterConnection(mode: Mode, disconnectOk: bool, connectOk: bool): Mode
  {
    if mode == Modbus then (if disconnectOk then ClearedFalse else Modbus)
    else if connectOk then Modbus
    else mode
  }

  class Header {
    var connected: Mode
    /** The store's `fileProgress`, which the header reads as the playback percentage. */
    var percentageComplete: real

    constructor (mode: Mode, percentageComplete: real)
      ensures connected == mode && this.percentageComplete == percentageComplete
    {
      connected := mode;
      this.percentageComplete := percentageComplete;
    }

    /** The play/pause button. */
    method HandleFile(pauseOk: bool, sendOk: bool) returns (invoked: seq<string>)
      modifies this`connected
      ensures connected == AfterFile(old(connected), percentageComplete, pauseOk, sendOk)
      ensures invoked == if percentageComplete == 100.0 then []
        else if old(connected) == File then [PauseColumnData]
        else [SendColumnData]
    {
      if percentageComplete == 100.0 {
        return [];
      }
      if connected == File {
        invoked := [PauseColumnData];
        if pauseOk {
          connected := Paused;
        } else {
          connected := NoneMode;
        }
        return;
      }
      connected := File;
      invoked := [SendColumnData];
      if !sendOk {
        connected := NoneMode;
      }
    }

    /** The connect button; `cleared` says whether the store's `clearData` ran. */
    method HandleConnection(disconnectOk: bool, connectOk: bool) returns (invoked: seq<string>, cleared: bool)
      modifies this`connected
      ensures connected == AfterConnection(old(connected), disconnectOk, connectOk)
      ensures cleared <==> old(connected) == Modbus && disconnectOk
      ensures invoked == if old(connected) == Modbus then [DisconnectModbus]
        else if connectOk then [ConnectModbus, SendColumnData]
        else [ConnectModbus]
    {
      cleared := false;
      if connected == Modbus {
        invoked := [DisconnectModbus];
        if disconnectOk {
          // setConnected("none"), then clearData() overwrites the field with false
          connected := NoneMode;
          connected := ClearedFalse;
          cleared := true;
        } else {
          connected := Modbus;
        }
        return;
      }
      invoked := [ConnectModbus];
      if connectOk {
        connected := Modbus;
        invoked := invoked + [SendColumnData];
      }
    }
  }

  /** The `false` left by `clearData` is treated like "none" by both buttons. */
  lemma ClearedActsAsNone(percentageComplete: real, pauseOk: bool, sendOk: bool, disconnectOk: bool, connectOk: bool)
    ensures AfterFile(ClearedFalse, percentageComplete, pauseOk, sendOk) ==
      (if percentageComplete == 100.0 then ClearedFalse else AfterFile(NoneMode, percentageComplete, pauseOk, sendOk))
    ensures AfterConnection(ClearedFalse, disconnectOk, connectOk) ==
      (if connectOk then AfterConnection(NoneMode, disconnectOk, connectOk) else ClearedFalse)
  {
  }

  /** Pausing a file playback and pressing play again resumes it. */
  lemma PauseThenResume(percentageComplete: real, sendOk: bool)
    requires percentageComplete != 100.0
    ensures AfterFile(AfterFile(File, percentageComplete, true, sendOk), percentageComplete, true, true) == File
  {
  }

  /** The play button takes the mode out of "modbus" even though nothing disconnects the link. */
  lemma PlayLeavesModbus(percentageComplete: real, pauseOk: bool, sendOk: bool)
    requires percentageComplete != 100.0
    ensures AfterFile(Modbus, percentageComplete, pauseOk, sendOk) != Modbus
  {
  }

  /** Neither button can make the mode "paused" except by pausing a file playback. */
  lemma PausedOnlyFromFile(mode: Mode, percentageComplete: real, pauseOk: bool, sendOk: bool, disconnectOk: bool, connectOk: bool)
    ensures AfterFile(mode, percentageComplete, pauseOk, sendOk) == Paused ==>
      mode == Paused || (mode == File && pauseOk)
    ensures AfterConnection(mode, disconnectOk, connectOk) == Paused ==> mode == Paused
  {
  }
}
