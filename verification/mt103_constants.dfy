/** The fixed tables the MT103 formatters draw on. */
module Mt103Constants {

  const HexChars: string := "ABCDEF0123456789"

  const AddressTemplates: seq<string> := [
    "123 Main Street", "456 Business Ave", "789 Commercial Blvd",
    "321 Financial District", "654 Banking Center", "987 Trade Plaza"
  ]

  const CountryCities: map<string, string> := map[
    "US" := "New York, United States",
    "GB" := "London, United Kingdom",
    "DE" := "Frankfurt, Germany",
    "FR" := "Paris, France",
    "CA" := "Toronto, Canada",
    "AU" := "Sydney, Australia",
    "JP" := "Tokyo, Japan",
    "CH" := "Zurich, Switzerland",
    "IT" := "Milan, Italy",
    "NL" := "Amsterdam, Netherlands",
    "ES" := "Madrid, Spain",
    "SG" := "Singapore, Singapore",
    "HK" := "Hong Kong, Hong Kong",
    "AE" := "Dubai, United Arab Emirates",
    "BR" := "S\U{00C3}\U{00A3}o Paulo, Brazil",
    "MX" := "Mexico City, Mexico",
    "IN" := "Mumbai, India",
    "CN" := "Shanghai, China",
    "ZA" := "Johannesburg, South Africa",
    "KR" := "Seoul, South Korea",
    "RU" := "Moscow, Russia",
    "TR" := "Istanbul, Turkey"
  ]

  /** Correspondent BIC per destination country (the Italian entry holds a space). */
  const IntermediaryBanks: map<string, string> := map[
    "US" := "CHASUS33XXX",
    "GB" := "BARCGB22XXX",
    "CA" := "TDOMCATTTOR",
    "DE" := "DEUTDEFFXXX",
    "FR" := "BNPAFRPPXXX",
    "JP" := "BOTKJPJTXXX",
    "AU" := "ANZBAU3MXXX",
    "CH" := "UBSWCHZHXXX",
    "IT" := "UNCRITMM XXX",
    "NL" := "INGBNL2AXXX",
    "ES" := "CAIXESBBXXX"
  ]

  const AdditionalCountries: map<string, string> := map[
    "PT" := "Portugal", "BE" := "Belgium", "LU" := "Luxembourg",
    "AT" := "Austria", "FI" := "Finland", "NO" := "Norway",
    "SE" := "Sweden", "DK" := "Denmark", "IE" := "Ireland",
    "LT" := "Lithuania", "LV" := "Latvia", "EE" := "Estonia",
    "PL" := "Poland", "CZ" := "Czech Republic", "HU" := "Hungary",
    "SK" := "Slovakia", "SI" := "Slovenia", "HR" := "Croatia",
    "BG" := "Bulgaria", "RO" := "Romania", "GR" := "Greece",
    "CY" := "Cyprus", "MT" := "Malta", "NZ" := "New Zealand",
    "KE" := "Kenya", "NG" := "Nigeria"
  ]

  /** Map.getOrDefault. */
  function GetOrDefault(m: map<string, string>, key: string, default: string): string {
    if key in m then m[key] else default
  }
}
