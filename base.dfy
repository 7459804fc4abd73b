/**
 * The device contract shared by every instrument driver, the reading type and the
 * exceptions the drivers and the collector raise.
 */
module Base {
  import opened Wrappers

  /** A key of a JSON configuration record: missing, present as null, or present with a value. */
  datatype Field<T> = Absent | Null | Given(v: T)

  /** One channel reading: a number, or NaN for a field that did not parse. */
  datatype Value = NaN | Num(x: real)

  /** Why a ValueError or an AssertionError was raised; one constructor per raise site. */
  datatype Reason =
    | NotANumber            // int() or float() refused its text
    | SamplingTimeNotPositive
    | KeyWithoutAt          // TCM: a key with no '@'
    | InvalidKeyFormat      // TCM: a key with more than one '@'
    | WriteValsMismatch     // TCM: write_vals given but not one per write key
    | NoWriteKeys           // TCM: write mode without write keys
    | DeviceCountMismatch   // TCM: num_devices differs from the distinct addresses
    | SamplingTooShort      // TCM: sampling period below the bus timing floor
    | UnsupportedData       // TCM.write_data: data of another type
    | DataKeysMismatch      // TCM.write_data: not one value per key
    | KeysNotSubset         // TCM.write_data: a key outside the write keys
    | InvalidDaqType        // FluxDAQ
    | NoSensors
    | SensorIdOutOfRange
    | MissingSensorInfo     // FluxDAQ: an empty sensor record
    | SValueNotPositive
    | NotResponding         // FluxDAQ precheck below 80 %
    | StackOutOfRange       // TCHAT
    | StackNotListed
    | InvalidSensorType
    | QueueHeaderMismatch   // DataCollector: not one header per queue
    | WriterMissing         // DataCollector.save_data
    | EmptyData
    | RowLengthMismatch
    | RaggedRows            // numpy refuses rows of different widths

  /** The Python exception a call ends with. */
  datatype Fault =
    | ValueError(reason: Reason)
    | AssertionError(reason: Reason)
    | IndexError
    | KeyError
    | TypeError
    | ZeroDivisionError
    | NameError
    | RuntimeError                                          // write without write mode
    | AttributeError(code: Option<int>, attr: string, addr: int)  // device-reported error code

  /** What the Device base constructor leaves behind; subclasses fill the header. */
  datatype DeviceInfo = DeviceInfo(name: string, samplingMs: int, header: seq<string>)

  /**
   * Device.__init__: name and sampling period are kept as given and the header starts
   * empty; a period that is not positive fails the assertion. (That the name is a string
   * and the period a number is what the types here already say.)
   */
  function InitDevice(name: string, samplingMs: int): (r: Result<DeviceInfo, Fault>)
    ensures r.Ok? <==> samplingMs > 0
    ensures r.Ok? ==> r.value.name == name && r.value.samplingMs == samplingMs && r.value.header == []
    ensures r.Err? ==> r.error == AssertionError(SamplingTimeNotPositive)
  {
    if samplingMs > 0 then Ok(DeviceInfo(name, samplingMs, []))
    else Err(AssertionError(SamplingTimeNotPositive))
  }

  /** The read_data contract: a reading has one value per header channel. */
  predicate FitsHeader(header: seq<string>, reading: seq<Value>) {
    |reading| == |header|
  }
}
