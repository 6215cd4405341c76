/** The runtime-binder Rust generator's state: a list of contract generators, the last one
    being the contract under generation, each holding its function, event and error
    streams. */
module RustGen {
  class ContractGenerator {
    const contractName: string
    var fnStreams: seq<string>
    var eventStreams: seq<string>
    var errorStreams: seq<string>

    /** `ContractGenerator::new`: the name, and no streams. */
    constructor (contractName: string)
      ensures this.contractName == contractName
      ensures fnStreams == [] && eventStreams == [] && errorStreams == []
    {
      this.contractName := contractName;
      fnStreams := [];
      eventStreams := [];
      errorStreams := [];
    }

    /** `add_fn_token_stream`: one more function stream at the end; the event and error
        streams stay as they were. */
    method AddFnTokenStream(stream: string)
      modifies this
      ensures fnStreams == old(fnStreams) + [stream]
      ensures |fnStreams| == |old(fnStreams)| + 1
      ensures eventStreams == old(eventStreams) && errorStreams == old(errorStreams)
    {
      fnStreams := fnStreams + [stream];
    }
  }

  class RustGenerator {
    var contracts: seq<ContractGenerator>

    /** `RustGenerator::default`: no contracts. */
    constructor ()
      ensures contracts == []
    {
      contracts := [];
    }

    /** `new_contract`: a fresh, empty generator for `name` is pushed at the end; the
        earlier generators and their streams are untouched. */
    method NewContract(name: string)
      modifies this
      ensures |contracts| == |old(contracts)| + 1
      ensures contracts[..|old(contracts)|] == old(contracts)
      ensures fresh(contracts[|contracts| - 1])
      ensures contracts[|contracts| - 1].contractName == name
      ensures contracts[|contracts| - 1].fnStreams == []
      ensures contracts[|contracts| - 1].eventStreams == [] && contracts[|contracts| - 1].errorStreams == []
    {
      var c := new ContractGenerator(name);
      contracts := contracts + [c];
    }

    /** `current_contract`: the generator pushed last. Calling it before any `new_contract`
        panics, which the precondition rules out. */
    method CurrentContract() returns (c: ContractGenerator)
      requires contracts != []
      ensures c == contracts[|contracts| - 1]
    {
      c := contracts[|contracts| - 1];
    }
  }
}
