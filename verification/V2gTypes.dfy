/** What the DIN 70121 and ISO 15118-2 servers share: message ids, events and what the station reports. */
module V2gTypes {
  datatype Message =
    | SupportedAppProtocol | SessionSetup | ServiceDiscovery | ServiceDetail | PaymentServiceSelection | PaymentDetails
    | Authorization | ChargeParameterDiscovery | MeteringReceipt | CertificateUpdate | CertificateInstallation
    | ChargingStatus | CableCheck | PreCharge | PowerDelivery | CurrentDemand | WeldingDetection | SessionStop | Unknown

  /** What becomes of the connection after a request. */
  datatype Event = NoEvent | TerminateConnection | SendAndTerminate | SendRecvExiMsg | IgnoreMsg

  datatype Code =
    | OK | OK_NewSessionEstablished | FAILED | FAILED_SequenceError | FAILED_ServiceSelectionInvalid
    | FAILED_PaymentSelectionInvalid | FAILED_UnknownSession | FAILED_CertChainError | FAILED_WrongChargeParameter
    | FAILED_WrongEnergyTransfer | FAILED_PowerDeliveryNotApplied | FAILED_TariffSelectionInvalid
    | FAILED_NoChargeServiceSelected | FAILED_ContactorError | FAILED_ServiceIDInvalid

  predicate Failed(code: Code) {
    code != OK && code != OK_NewSessionEstablished
  }

  predicate Terminating(e: Event) {
    e == TerminateConnection || e == SendAndTerminate
  }

  datatype Isolation = Invalid | Valid | Warning | Fault | NoImd

  /** The part of the station's data that other threads set while a session runs. */
  datatype Station = Station(
    authFinished: bool, parameterFinished: bool, isolationFinished: bool,
    isolationUsed: bool, isolation: Isolation, isolationReady: bool, chargeReady: bool,
    contactorClosed: bool, receiptRequired: bool, stopHlc: bool, emergency: bool, terminated: bool)
}
