/** The finance service's registry of peer-to-peer exchange adapters: adapters
    are kept by name, lookups fall back to the default adapter, and quotes and
    sell orders are delegated to the adapter selected. */
module P2P {
  import opened Wrappers

  /** An adapter instance; what its exchange calls do is outside the model, so
      an adapter is its name and an identity telling instances apart. */
  datatype Adapter = Adapter(name: string, instance: nat)

  /** The call made on an adapter, with the arguments it receives. */
  datatype AdapterCall =
    | GetExchangeRate(target: Adapter, currency: string)
    | CreateSellOrder(target: Adapter, amount: real, currency: string)

  class P2PService {
    var adapters: map<string, Adapter>
    const defaultAdapter: Adapter

    /** The default adapter is registered under its own name. */
    constructor (defaultAdapter: Adapter)
      ensures this.defaultAdapter == defaultAdapter
      ensures adapters == map[defaultAdapter.name := defaultAdapter]
    {
      this.defaultAdapter := defaultAdapter;
      adapters := map[];
      new;
      RegisterAdapter(defaultAdapter);
    }

    /** `registerAdapter`: the adapter replaces any other of the same name. */
    method RegisterAdapter(adapter: Adapter)
      modifies this
      ensures adapters == old(adapters)[adapter.name := adapter]
    {
      adapters := adapters[adapter.name := adapter];
    }

    /** `getAdapter`: the adapter registered under a non-empty name, otherwise
        the default one, also when no name is given. */
    function GetAdapter(name: Option<string>): (a: Adapter)
      reads this
      ensures Truthy(name) && name.value in adapters ==> a == adapters[name.value]
      ensures !(Truthy(name) && name.value in adapters) ==> a == defaultAdapter
    {
      if Truthy(name) && name.value in adapters then adapters[name.value] else defaultAdapter
    }

    /** `getUSDTQuote`: the currency goes unchanged to the selected adapter. */
    method GetUSDTQuote(currency: string, providerName: Option<string>) returns (call: AdapterCall)
      ensures call == GetExchangeRate(GetAdapter(providerName), currency)
    {
      call := GetExchangeRate(GetAdapter(providerName), currency);
    }

    /** `initiateUSDTConversion`: amount and currency go unchanged to the selected adapter. */
    method InitiateUSDTConversion(amount: real, currency: string, providerName: Option<string>) returns (call: AdapterCall)
      ensures call == CreateSellOrder(GetAdapter(providerName), amount, currency)
    {
      call := CreateSellOrder(GetAdapter(providerName), amount, currency);
    }
  }

  /** A worked example of the registry, not a general property: after
      registering an adapter it is what its name selects, an unknown name
      selects the default, and re-registering the default's name redirects
      named lookups but not unnamed ones. */
  method RegistryScenario()
  {
    var binance := Adapter("binance", 0);
    var service := new P2PService(binance);
    assert service.GetAdapter(None) == binance;
    assert service.GetAdapter(Some("binance")) == binance;
    assert service.GetAdapter(Some("unknown")) == binance;

    var other := Adapter("airtm", 1);
    service.RegisterAdapter(other);
    assert service.GetAdapter(Some("airtm")) == other;
    var quote := service.GetUSDTQuote("ARS", Some("airtm"));
    assert quote == GetExchangeRate(other, "ARS");

    var replacement := Adapter("binance", 2);
    service.RegisterAdapter(replacement);
    assert service.GetAdapter(Some("binance")) == replacement;
    assert service.GetAdapter(None) == binance;
  }
}
